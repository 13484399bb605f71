/**
 * The reminder e-mails of the backend's EmailService: the subject line and
 * the HTML body of an event reminder and of a task reminder. The body is
 * modelled as its sequence of sections, each rendered to one HTML fragment;
 * the indentation between fragments is not modelled.
 */
module EmailTemplates {
  import opened Base

  /** The fields a reminder request carries; any of them may be missing. */
  datatype ReminderData = ReminderData(
    title: Option<string>,
    description: Option<string>,
    start: Option<string>,
    dueDate: Option<string>,
    location: Option<string>,
    category: Option<string>,
    priority: Option<string>)

  /** `${value}` in a template string: a missing field prints as "undefined". */
  function Text(value: Option<string>): string
  {
    if value.Some? then value.value else "undefined"
  }

  datatype Section =
    | Heading(text: string)
    | Title(text: string)
    | Description(text: string)
    | StartsAt(text: string)
    | DueAt(text: string)
    | Location(text: string)
    | Category(text: string)
    | Priority(text: string)
    | Footer

  const EventSubjectPrefix: string := "Reminder: "
  const EventSubjectSuffix: string := " începe în curând"
  const TaskSubjectPrefix: string := "Reminder: Task \""
  const TaskSubjectSuffix: string := "\" are termen limită în curând"

  function EventSubject(data: ReminderData): (s: string)
    ensures |s| == |EventSubjectPrefix| + |Text(data.title)| + |EventSubjectSuffix|
    ensures s[..|EventSubjectPrefix|] == EventSubjectPrefix
    ensures s[|s| - |EventSubjectSuffix|..] == EventSubjectSuffix
  {
    Framed(EventSubjectPrefix, Text(data.title), EventSubjectSuffix)
  }

  function TaskSubject(data: ReminderData): (s: string)
    ensures |s| == |TaskSubjectPrefix| + |Text(data.title)| + |TaskSubjectSuffix|
    ensures s[..|TaskSubjectPrefix|] == TaskSubjectPrefix
    ensures s[|s| - |TaskSubjectSuffix|..] == TaskSubjectSuffix
  {
    Framed(TaskSubjectPrefix, Text(data.title), TaskSubjectSuffix)
  }

  /** A text between a fixed opening and a fixed closing. */
  function Framed(open: string, text: string, close: string): (s: string)
    ensures |s| == |open| + |text| + |close|
    ensures s[..|open|] == open && s[|open|..|s| - |close|] == text && s[|s| - |close|..] == close
  {
    open + text + close
  }

  /** The title read back out of an event subject. */
  function EventSubjectTitle(subject: string): string
    requires |subject| >= |EventSubjectPrefix| + |EventSubjectSuffix|
  {
    subject[|EventSubjectPrefix|..|subject| - |EventSubjectSuffix|]
  }

  /** The title read back out of a task subject: the text between the double quotes. */
  function TaskSubjectTitle(subject: string): string
    requires |subject| >= |TaskSubjectPrefix| + |TaskSubjectSuffix|
  {
    subject[|TaskSubjectPrefix|..|subject| - |TaskSubjectSuffix|]
  }

  /** Each subject carries the title verbatim between its fixed prefix and suffix. */
  lemma SubjectsCarryTitle(data: ReminderData)
    ensures EventSubjectTitle(EventSubject(data)) == Text(data.title)
    ensures TaskSubjectTitle(TaskSubject(data)) == Text(data.title)
    ensures EventSubject(data)[..|EventSubjectPrefix|] == EventSubjectPrefix
    ensures TaskSubject(data)[..|TaskSubjectPrefix|] == TaskSubjectPrefix
  {
    var e := EventSubject(data);
    assert e[|EventSubjectPrefix|..|e| - |EventSubjectSuffix|] == Text(data.title);
    var t := TaskSubject(data);
    assert t[|TaskSubjectPrefix|..|t| - |TaskSubjectSuffix|] == Text(data.title);
  }

  /** `${field ? `...` : ''}`: the section when the field is truthy, nothing otherwise. */
  function IfTruthy(field: Option<string>, section: Section): seq<Section>
  {
    if Truthy(field) then [section] else []
  }

  /**
   * sendEventReminder's body. `formatDate` stands for
   * `new Date(value).toLocaleString('ro-RO')`.
   */
  function EventSections(data: ReminderData, formatDate: Option<string> -> string): (r: seq<Section>)
    ensures |r| >= 4 && r[0] == Heading("Reminder pentru eveniment") && r[1] == Title(Text(data.title))
    ensures r[|r| - 1] == Footer
  {
    [Heading("Reminder pentru eveniment"), Title(Text(data.title))]
    + IfTruthy(data.description, Description(Text(data.description)))
    + [StartsAt(formatDate(data.start))]
    + IfTruthy(data.location, Location(Text(data.location)))
    + IfTruthy(data.category, Category(Text(data.category)))
    + [Footer]
  }

  /** sendTaskReminder's body: the priority line is unconditional, there is no location. */
  function TaskSections(data: ReminderData, formatDate: Option<string> -> string): (r: seq<Section>)
    ensures |r| >= 5 && r[0] == Heading("Reminder pentru task") && r[1] == Title(Text(data.title))
    ensures r[|r| - 1] == Footer
  {
    [Heading("Reminder pentru task"), Title(Text(data.title))]
    + IfTruthy(data.description, Description(Text(data.description)))
    + [DueAt(formatDate(data.dueDate)), Priority(Text(data.priority))]
    + IfTruthy(data.category, Category(Text(data.category)))
    + [Footer]
  }

  /**
   * The event body always shows the start, shows description, location and
   * category exactly when they are truthy, and never shows a due date or a priority.
   */
  lemma EventSectionsContent(data: ReminderData, formatDate: Option<string> -> string)
    ensures var r := EventSections(data, formatDate);
      StartsAt(formatDate(data.start)) in r
      && (Truthy(data.description) ==> Description(data.description.value) in r)
      && (forall s :: s in r && s.Description? ==> Truthy(data.description) && s == Description(data.description.value))
      && (Truthy(data.location) ==> Location(data.location.value) in r)
      && (forall s :: s in r && s.Location? ==> Truthy(data.location) && s == Location(data.location.value))
      && (Truthy(data.category) ==> Category(data.category.value) in r)
      && (forall s :: s in r && s.Category? ==> Truthy(data.category) && s == Category(data.category.value))
      && forall s :: s in r ==> !s.Priority? && !s.DueAt?
  {
    var d := IfTruthy(data.description, Description(Text(data.description)));
    var l := IfTruthy(data.location, Location(Text(data.location)));
    var c := IfTruthy(data.category, Category(Text(data.category)));
    var head := [Heading("Reminder pentru eveniment"), Title(Text(data.title))];
    var r := EventSections(data, formatDate);
    assert r == head + d + [StartsAt(formatDate(data.start))] + l + c + [Footer];
    assert forall s :: s in r <==> s in head || s in d || s == StartsAt(formatDate(data.start)) || s in l || s in c || s == Footer;
  }

  /**
   * The task body always shows the due date and the priority, shows
   * description and category exactly when they are truthy, and never shows a
   * start or a location.
   */
  lemma TaskSectionsContent(data: ReminderData, formatDate: Option<string> -> string)
    ensures var r := TaskSections(data, formatDate);
      DueAt(formatDate(data.dueDate)) in r
      && Priority(Text(data.priority)) in r
      && (Truthy(data.description) ==> Description(data.description.value) in r)
      && (forall s :: s in r && s.Description? ==> Truthy(data.description) && s == Description(data.description.value))
      && (Truthy(data.category) ==> Category(data.category.value) in r)
      && (forall s :: s in r && s.Category? ==> Truthy(data.category) && s == Category(data.category.value))
      && forall s :: s in r ==> !s.Location? && !s.StartsAt?
  {
    var d := IfTruthy(data.description, Description(Text(data.description)));
    var c := IfTruthy(data.category, Category(Text(data.category)));
    var head := [Heading("Reminder pentru task"), Title(Text(data.title))];
    var mid := [DueAt(formatDate(data.dueDate)), Priority(Text(data.priority))];
    var r := TaskSections(data, formatDate);
    assert r == head + d + mid + c + [Footer];
    assert forall s :: s in r <==> s in head || s in d || s in mid || s in c || s == Footer;
  }

  /** The HTML fragment of one section. */
  function Render(section: Section): string
  {
    match section
    case Heading(t) => "<h2 style=\"color: #315659;\">" + t + "</h2><div style=\"background: #f5f5f5; padding: 20px; border-radius: 8px;\">"
    case Title(t) => "<h3 style=\"color: #2978A0;\">" + t + "</h3>"
    case Description(t) => "<p>" + t + "</p>"
    case StartsAt(t) => "<p><strong>Începe la:</strong> " + t + "</p>"
    case DueAt(t) => "<p><strong>Termen limită:</strong> " + t + "</p>"
    case Location(t) => "<p><strong>Locație:</strong> " + t + "</p>"
    case Category(t) => "<p><strong>Categorie:</strong> " + t + "</p>"
    case Priority(t) => "<p><strong>Prioritate:</strong> " + t + "</p>"
    case Footer => "</div><p style=\"color: #666; font-size: 14px; margin-top: 20px;\">Acest email a fost trimis automat de aplicația Momentum.</p>"
  }

  function RenderAll(sections: seq<Section>): string
  {
    if sections == [] then "" else Render(sections[0]) + RenderAll(sections[1..])
  }

  const Open: string := "<div style=\"font-family: Arial, sans-serif; max-width: 600px; margin: 0 auto;\">"
  const Close: string := "</div>"

  function Html(sections: seq<Section>): (h: string)
    ensures |h| >= |Open| + |Close|
    ensures h[..|Open|] == Open && h[|h| - |Close|..] == Close
  {
    Framed(Open, RenderAll(sections), Close)
  }

  /** Both bodies end with the same fixed footer, whatever the data. */
  lemma BodiesEndWithFooter(data: ReminderData, formatDate: Option<string> -> string)
    ensures EndsWithFooter(Html(EventSections(data, formatDate)))
    ensures EndsWithFooter(Html(TaskSections(data, formatDate)))
  {
    var e := EventSections(data, formatDate);
    var t := TaskSections(data, formatDate);
    RenderEndsWithLast(e);
    RenderEndsWithLast(t);
  }

  predicate EndsWith(h: string, tail: string)
  {
    |h| >= |tail| && h[|h| - |tail|..] == tail
  }

  /** The HTML ends with the footer paragraph and the closing of the outer block. */
  predicate EndsWithFooter(h: string)
  {
    EndsWith(h, Render(Footer) + Close)
  }

  /** The HTML of a non-empty body ends with its last section's fragment and the closing tag. */
  lemma RenderEndsWithLast(sections: seq<Section>)
    requires |sections| > 0
    ensures EndsWith(Html(sections), Render(sections[|sections| - 1]) + Close)
  {
    RenderAllSplit(sections);
    FramedEndsWith(Open, RenderAll(sections[..|sections| - 1]), Render(sections[|sections| - 1]), Close);
  }

  /** A framed text whose body ends with `last` ends with `last` and the closing. */
  lemma FramedEndsWith(open: string, body: string, last: string, close: string)
    ensures EndsWith(Framed(open, body + last, close), last + close)
  {
    assert Framed(open, body + last, close) == (open + body) + (last + close);
  }

  lemma {:induction false} RenderAllSplit(sections: seq<Section>)
    requires |sections| > 0
    ensures RenderAll(sections) == RenderAll(sections[..|sections| - 1]) + Render(sections[|sections| - 1])
  {
    if |sections| > 1 {
      RenderAllSplit(sections[1..]);
      assert sections[1..][..|sections[1..]| - 1] == sections[..|sections| - 1][1..];
    }
  }
}
