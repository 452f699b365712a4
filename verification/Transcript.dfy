/** The broker's per-agent transcript. The functions say what document a list of
    messages stands for and which messages an event leaves; the class keeps the
    document up to date one message at a time and names the lines it changed. */
module Transcripts {
  import opened Options
  import opened Utf8
  import opened Markdown
  import opened Splice
  import Styler
  import Protocol

  type Provider = Protocol.Provider

  datatype Role = User | Assistant | System

  datatype Entry = Entry(role: Role, title: Option<string>, text: string, streaming: bool)

  /** A message and the number of document lines it occupies. */
  datatype Message = Message(entry: Entry, lineCount: nat)

  datatype Patch = Patch(revision: nat, edit: Edit<Line>)

  datatype EventKind = MessageDelta | MessageCompleted | TurnCompleted | TurnFailed | OtherEvent

  /** A normalized provider event: the text and the model its payload names, if any. */
  datatype Event = Event(kind: EventKind, provider: Provider, text: Option<string>, model: Option<string>)

  /** One projected history message; an unknown or missing role or text is `None`. */
  datatype HistoryItem = HistoryItem(role: Option<Role>, text: Option<string>, model: Option<string>)

  const REPLACEMENT := '\U{FFFD}'
  const ELLIPSIS := "\U{2026}"

  /* ---- Rendering ---- */

  /** NUL becomes the replacement character and carriage returns go. */
  function Normalize(text: string): string {
    if text == "" then "" else NormalChar(text[0]) + Normalize(text[1..])
  }

  function NormalChar(c: char): string {
    if c == '\0' then [REPLACEMENT] else if c == '\r' then "" else [c]
  }

  function Split(text: string): (r: seq<string>)
    ensures r != []
  {
    if text == "" then [""]
    else
      var rest := Split(text[1..]);
      if text[0] == '\n' then [""] + rest else [[text[0]] + rest[0]] + rest[1..]
  }

  function TextLines(text: string): (r: seq<string>)
    ensures r != []
  {
    Split(Normalize(text))
  }

  function InlineLabel(title: string): string {
    if title == "" then ""
    else
      [if title[0] == '\0' then REPLACEMENT else if title[0] in {'\r', '\n'} then ' ' else title[0]]
      + InlineLabel(title[1..])
  }

  function StyledLines(texts: seq<string>, style: Style): (r: seq<Line>)
    ensures |r| == |texts| && forall i :: 0 <= i < |r| ==> r[i] == StyledLine(texts[i], style)
  {
    seq(|texts|, i requires 0 <= i < |texts| => StyledLine(texts[i], style))
  }

  /** The label and the blank line under it. */
  function Header(e: Entry): (r: seq<Line>)
    ensures |r| == 2
  {
    var title := if e.title.Some? then e.title.value else "";
    [StyledLine(InlineLabel(title), if e.role == System then LabelSystem else LabelAssistant), PlainLine("")]
  }

  function Body(alnum: char -> bool, e: Entry): seq<Line> {
    if e.role == User then StyledLines(TextLines(e.text), MessageUser)
    else if e.streaming && e.text == "" then []
    else StyleLines(alnum, TextLines(e.text))
  }

  function Footer(e: Entry): seq<Line> {
    (if e.role != User && e.streaming then [StyledLine(ELLIPSIS, Streaming)] else []) + [PlainLine("")]
  }

  function Render(alnum: char -> bool, e: Entry): seq<Line> {
    (if e.role == User then [] else Header(e)) + Body(alnum, e) + Footer(e)
  }

  function Document(alnum: char -> bool, entries: seq<Entry>): seq<Line> {
    RenderAll((e: Entry) => Render(alnum, e), entries)
  }

  /** The patch a whole-document comparison emits. */
  function DocumentPatch(before: seq<Line>, after: seq<Line>, revision: nat): Patch {
    Patch(revision, Diff(before, after))
  }

  /* ---- What an operation does to the messages ---- */

  function ProviderName(provider: Provider): string {
    match provider
    case Codex => "Codex"
    case Claude => "Claude"
  }

  function Label(model: Option<string>, defaultModel: Option<string>, provider: Provider): string {
    if model.Some? && model.value != "" then model.value
    else if defaultModel.Some? && defaultModel.value != "" then defaultModel.value
    else ProviderName(provider) + " (default model)"
  }

  function UserEntry(text: string): Entry { Entry(User, None, text, false) }

  predicate OpenReply(entries: seq<Entry>) {
    entries != [] && entries[|entries| - 1].role == Assistant && entries[|entries| - 1].streaming
  }

  function ReplaceLast(entries: seq<Entry>, e: Entry): seq<Entry>
    requires entries != []
  {
    entries[..|entries| - 1] + [e]
  }

  /** The messages after an event, or `None` when it changes nothing. */
  function AfterEvent(entries: seq<Entry>, event: Event, defaultModel: Option<string>): Option<seq<Entry>> {
    var title := Some(Label(event.model, defaultModel, event.provider));
    match event.kind
    case MessageDelta =>
      var delta := if event.text.Some? then event.text.value else "";
      if OpenReply(entries) then
        if delta == "" then None
        else
          var last := entries[|entries| - 1];
          Some(ReplaceLast(entries, last.(text := last.text + delta)))
      else Some(entries + [Entry(Assistant, title, delta, true)])
    case MessageCompleted =>
      if OpenReply(entries) then
        var last := entries[|entries| - 1];
        var text := if event.text.Some? && Bytes(event.text.value) >= Bytes(last.text)
                    then event.text.value else last.text;
        Some(ReplaceLast(entries, last.(text := text, streaming := false)))
      else if event.text.Some? then Some(entries + [Entry(Assistant, title, event.text.value, false)])
      else None
    case TurnCompleted => CloseReply(entries)
    case TurnFailed => CloseReply(entries)
    case OtherEvent => None
  }

  function CloseReply(entries: seq<Entry>): Option<seq<Entry>> {
    if OpenReply(entries) then Some(ReplaceLast(entries, entries[|entries| - 1].(streaming := false))) else None
  }

  function HistoryEntry(item: HistoryItem, provider: Provider, defaultModel: Option<string>): seq<Entry> {
    if item.role.None? || item.text.None? then []
    else
      var title := match item.role.value
                   case User => None
                   case System => Some("SYSTEM")
                   case Assistant => Some(Label(item.model, defaultModel, provider));
      [Entry(item.role.value, title, item.text.value, false)]
  }

  function HistoryEntries(items: seq<HistoryItem>, provider: Provider, defaultModel: Option<string>): seq<Entry> {
    if items == [] then []
    else HistoryEntry(items[0], provider, defaultModel) + HistoryEntries(items[1..], provider, defaultModel)
  }

  /* ---- The incremental projection ---- */

  function EntriesOf(messages: seq<Message>): (r: seq<Entry>)
    ensures |r| == |messages| && forall i :: 0 <= i < |r| ==> r[i] == messages[i].entry
  {
    seq(|messages|, i requires 0 <= i < |messages| => messages[i].entry)
  }

  type Renderer = Entry -> seq<Line>

  /** `render` renders each message as the projection does. */
  ghost predicate Renders(render: Renderer, alnum: char -> bool) {
    forall e {:trigger Render(alnum, e)} :: render(e) == Render(alnum, e)
  }

  lemma {:induction false} RendersDocument(render: Renderer, alnum: char -> bool, entries: seq<Entry>)
    requires Renders(render, alnum)
    ensures RenderAll(render, entries) == Document(alnum, entries)
  {
    var other := (e: Entry) => Render(alnum, e);
    if entries != [] {
      RendersDocument(render, alnum, entries[1..]);
      assert render(entries[0]) == Render(alnum, entries[0]) == other(entries[0]);
    }
  }

  ghost predicate Counted(render: Renderer, messages: seq<Message>) {
    forall m | m in messages :: m.lineCount == |render(m.entry)|
  }

  function SumCounts(messages: seq<Message>): nat {
    if messages == [] then 0 else messages[0].lineCount + SumCounts(messages[1..])
  }

  lemma {:induction false} CountsLocate(render: Renderer, messages: seq<Message>)
    requires Counted(render, messages)
    ensures SumCounts(messages) == |RenderAll(render, EntriesOf(messages))|
  {
    if messages != [] {
      CountsLocate(render, messages[1..]);
      assert EntriesOf(messages)[1..] == EntriesOf(messages[1..]);
    }
  }

  /** Where a message stands in the document, and what replacing it makes of the document. */
  lemma Located(render: Renderer, messages: seq<Message>, index: nat, e: Entry)
    requires Counted(render, messages) && index < |messages|
    ensures var entries := EntriesOf(messages);
            var front, back := RenderAll(render, entries[..index]), RenderAll(render, entries[index + 1..]);
            && SumCounts(messages[..index]) == |front|
            && RenderAll(render, entries) == front + render(entries[index]) + back
            && RenderAll(render, entries[index := e]) == front + render(e) + back
            && (index == |messages| - 1 ==> back == [])
  {
    var entries := EntriesOf(messages);
    CountsLocate(render, messages[..index]);
    assert EntriesOf(messages[..index]) == entries[..index];
    RenderAround(render, entries, index, entries[index]);
    RenderAround(render, entries, index, e);
    assert entries[index := entries[index]] == entries;
  }

  method RenderMessage(alnum: char -> bool, e: Entry) returns (lines: seq<Line>)
    ensures lines == Render(alnum, e)
  {
    lines := if e.role == User then [] else Header(e);
    var body := RenderBody(alnum, e);
    lines := lines + body + Footer(e);
  }

  method RenderBody(alnum: char -> bool, e: Entry) returns (lines: seq<Line>)
    ensures lines == Body(alnum, e)
  {
    if e.role == User {
      lines := StyledLines(TextLines(e.text), MessageUser);
    } else if e.streaming && e.text == "" {
      lines := [];
    } else {
      lines := Styler.StyleAll(alnum, TextLines(e.text));
    }
  }

  method RenderWith(alnum: char -> bool, ghost render: Renderer, e: Entry) returns (lines: seq<Line>)
    requires Renders(render, alnum)
    ensures lines == render(e)
  {
    lines := RenderMessage(alnum, e);
  }

  method RenderEach(alnum: char -> bool, ghost render: Renderer, entries: seq<Entry>)
    returns (messages: seq<Message>, rendered: seq<Line>)
    requires Renders(render, alnum)
    ensures Counted(render, messages) && EntriesOf(messages) == entries
    ensures rendered == RenderAll(render, entries)
  {
    messages, rendered := [], [];
    for i := 0 to |entries|
      invariant Counted(render, messages) && EntriesOf(messages) == entries[..i]
      invariant rendered == RenderAll(render, entries[..i])
    {
      var more := RenderWith(alnum, render, entries[i]);
      messages := messages + [Message(entries[i], |more|)];
      rendered := rendered + more;
      assert entries[..i + 1] == entries[..i] + [entries[i]];
      RenderSnoc(render, entries[..i], entries[i]);
    }
    assert entries[..|entries|] == entries;
  }

  class Transcript {
    const alnum: char -> bool
    ghost const render: Renderer
    var messages: seq<Message>
    var lines: seq<Line>
    var revision: nat

    /** The document is exactly what rendering every message from scratch gives. */
    ghost predicate Valid()
      reads this
    {
      && Renders(render, alnum)
      && Counted(render, messages)
      && lines == RenderAll(render, EntriesOf(messages))
    }

    constructor (alnum: char -> bool)
      ensures Valid() && this.alnum == alnum && messages == [] && lines == [] && revision == 0
    {
      this.alnum := alnum;
      this.render := (e: Entry) => Render(alnum, e);
      messages, lines, revision := [], [], 0;
    }

    /** One more revision, whose patch is the one of a whole-document comparison. */
    twostate predicate Committed(patch: Patch)
      reads this
    {
      revision == old(revision) + 1 && patch == DocumentPatch(old(lines), lines, revision)
    }

    method PushUser(text: string) returns (patch: Patch)
      requires Valid()
      modifies this
      ensures Valid() && Committed(patch)
      ensures EntriesOf(messages) == old(EntriesOf(messages)) + [UserEntry(text)]
    {
      patch := PushMessage(UserEntry(text));
    }

    method ApplyEvent(event: Event, defaultModel: Option<string>) returns (patch: Option<Patch>)
      requires Valid()
      modifies this
      ensures Valid()
      ensures var after := AfterEvent(old(EntriesOf(messages)), event, defaultModel);
              if after.None? then patch.None? && unchanged(this)
              else patch.Some? && Committed(patch.value) && EntriesOf(messages) == after.value
    {
      match event.kind {
        case MessageDelta => patch := Extend(event, defaultModel);
        case MessageCompleted => patch := Complete(event, defaultModel);
        case TurnCompleted => patch := EndTurn();
        case TurnFailed => patch := EndTurn();
        case OtherEvent => patch := None;
      }
    }

    method Extend(event: Event, defaultModel: Option<string>) returns (patch: Option<Patch>)
      requires Valid() && event.kind == MessageDelta
      modifies this
      ensures Valid()
      ensures var after := AfterEvent(old(EntriesOf(messages)), event, defaultModel);
              if after.None? then patch.None? && unchanged(this)
              else patch.Some? && Committed(patch.value) && EntriesOf(messages) == after.value
    {
      var delta := if event.text.Some? then event.text.value else "";
      var open := StreamingAssistant();
      var p;
      if open.Some? {
        if delta == "" {
          return None;
        }
        var entry := messages[open.value].entry;
        p := SetMessage(open.value, entry.(text := entry.text + delta));
      } else {
        p := PushMessage(Entry(Assistant, Some(Label(event.model, defaultModel, event.provider)), delta, true));
      }
      patch := Some(p);
    }

    method Complete(event: Event, defaultModel: Option<string>) returns (patch: Option<Patch>)
      requires Valid() && event.kind == MessageCompleted
      modifies this
      ensures Valid()
      ensures var after := AfterEvent(old(EntriesOf(messages)), event, defaultModel);
              if after.None? then patch.None? && unchanged(this)
              else patch.Some? && Committed(patch.value) && EntriesOf(messages) == after.value
    {
      var open := StreamingAssistant();
      var p;
      if open.Some? {
        var entry := messages[open.value].entry;
        if event.text.Some? && Bytes(event.text.value) >= Bytes(entry.text) {
          entry := entry.(text := event.text.value);
        }
        p := SetMessage(open.value, entry.(streaming := false));
      } else if event.text.Some? {
        var title := Some(Label(event.model, defaultModel, event.provider));
        p := PushMessage(Entry(Assistant, title, event.text.value, false));
      } else {
        return None;
      }
      patch := Some(p);
    }

    method EndTurn() returns (patch: Option<Patch>)
      requires Valid()
      modifies this
      ensures Valid()
      ensures var after := CloseReply(old(EntriesOf(messages)));
              if after.None? then patch.None? && unchanged(this)
              else patch.Some? && Committed(patch.value) && EntriesOf(messages) == after.value
    {
      var open := StreamingAssistant();
      if open.None? {
        return None;
      }
      var p := SetMessage(open.value, messages[open.value].entry.(streaming := false));
      return Some(p);
    }

    method ReplaceHistory(items: seq<HistoryItem>, provider: Provider, defaultModel: Option<string>)
      returns (patch: Patch)
      requires Valid()
      modifies this
      ensures Valid() && Committed(patch)
      ensures EntriesOf(messages) == HistoryEntries(items, provider, defaultModel)
    {
      var entries := HistoryEntries(items, provider, defaultModel);
      var projected, rendered := RenderEach(alnum, render, entries);
      assert lines[0..|lines|] == lines;
      messages := projected;
      patch := Replace(0, |lines|, rendered);
    }

    function StreamingAssistant(): (r: Option<nat>)
      reads this
      ensures r.Some? <==> OpenReply(EntriesOf(messages))
      ensures r.Some? ==> r.value == |messages| - 1
    {
      if messages == [] then None
      else
        var last := messages[|messages| - 1].entry;
        if last.role == Assistant && last.streaming then Some(|messages| - 1) else None
    }

    method PushMessage(e: Entry) returns (patch: Patch)
      requires Valid()
      modifies this
      ensures Valid() && Committed(patch)
      ensures EntriesOf(messages) == old(EntriesOf(messages)) + [e]
    {
      var rendered := RenderWith(alnum, render, e);
      PushAt(render, messages, e, lines);
      messages := messages + [Message(e, |rendered|)];
      patch := Replace(|lines|, |lines|, rendered);
    }

    /** Any message may be replaced; the callers replace the last one, and then the
        patch is the one of a whole-document comparison. */
    method SetMessage(index: nat, e: Entry) returns (patch: Patch)
      requires Valid() && index < |messages|
      modifies this
      ensures Valid() && revision == old(revision) + 1
      ensures EntriesOf(messages) == old(EntriesOf(messages))[index := e]
      ensures index == old(|messages|) - 1 ==> Committed(patch)
    {
      var count: nat;
      patch, count := SpliceMessage(index, e);
      Recounted(render, messages, index, e);
      messages := messages[index := Message(e, count)];
    }

    /** Replaces the lines of one message. */
    method SpliceMessage(index: nat, e: Entry) returns (patch: Patch, count: nat)
      requires Valid() && index < |messages|
      modifies this`lines, this`revision
      ensures lines == RenderAll(render, EntriesOf(messages)[index := e]) && count == |render(e)|
      ensures revision == old(revision) + 1
      ensures index == |messages| - 1 ==> Committed(patch)
    {
      var start := SumCounts(messages[..index]);
      var end := start + messages[index].lineCount;
      ghost var was := lines;
      var rendered := RenderWith(alnum, render, e);
      Stands(render, messages, index, lines);
      patch := Replace(start, end, rendered);
      SetAt(render, messages, index, e, was, lines);
      count := |rendered|;
    }

    /** Replaces `[start, end)`, naming only the lines that differ. */
    method Replace(start: nat, end: nat, rendered: seq<Line>) returns (patch: Patch)
      requires start <= end <= |lines|
      modifies this`lines, this`revision
      ensures lines == old(lines)[..start] + rendered + old(lines)[end..]
      ensures revision == old(revision) + 1
      ensures patch == Patch(revision, Shifted(Diff(old(lines)[start..end], rendered), start))
    {
      var was := lines[start..end];
      var edit := Differing(was, rendered);
      EditInPlace(lines, start, end, was, rendered);
      lines := lines[..start + edit.start] + edit.lines + lines[start + edit.end..];
      revision := revision + 1;
      patch := Patch(revision, Shifted(edit, start));
    }
  }

  /** The lines between the common prefix and the common suffix. */
  method Differing(was: seq<Line>, rendered: seq<Line>) returns (edit: Edit<Line>)
    ensures edit == Diff(was, rendered)
  {
    var prefix := Prefix(was, rendered, 0);
    var suffix := Suffix(was, rendered, Least(|was|, |rendered|) - prefix, 0);
    Trimmed(was, rendered, prefix, suffix);
    edit := Edit(prefix, |was| - suffix, rendered[prefix..|rendered| - suffix]);
  }

  lemma PushAt(render: Renderer, messages: seq<Message>, e: Entry, lines: seq<Line>)
    requires Counted(render, messages) && lines == RenderAll(render, EntriesOf(messages))
    ensures var pushed := messages + [Message(e, |render(e)|)];
            && Counted(render, pushed)
            && EntriesOf(pushed) == EntriesOf(messages) + [e]
            && RenderAll(render, EntriesOf(pushed)) == lines + render(e)
            && lines[..|lines|] + render(e) + lines[|lines|..] == lines + render(e)
            && Diff(lines, lines + render(e)) == Shifted(Diff(lines[|lines|..|lines|], render(e)), |lines|)
  {
    RenderSnoc(render, EntriesOf(messages), e);
    DiffAfter(lines, [], render(e));
    assert lines[|lines|..|lines|] == [] && lines + [] == lines;
    assert EntriesOf(messages + [Message(e, |render(e)|)]) == EntriesOf(messages) + [e];
  }

  /** The lines of a message are within the document. */
  lemma Stands(render: Renderer, messages: seq<Message>, index: nat, lines: seq<Line>)
    requires Counted(render, messages) && index < |messages|
    requires lines == RenderAll(render, EntriesOf(messages))
    ensures SumCounts(messages[..index]) + messages[index].lineCount <= |lines|
  {
    Located(render, messages, index, messages[index].entry);
  }

  /** Replacing the lines of one message renders the new list of messages, and when
      the message is the last one, comparing its lines compares the documents. */
  lemma SetAt(render: Renderer, messages: seq<Message>, index: nat, e: Entry, lines: seq<Line>, now: seq<Line>)
    requires Counted(render, messages) && index < |messages|
    requires lines == RenderAll(render, EntriesOf(messages))
    requires var start := SumCounts(messages[..index]);
             var end := start + messages[index].lineCount;
             end <= |lines| && now == lines[..start] + render(e) + lines[end..]
    ensures RenderAll(render, EntriesOf(messages)[index := e]) == now
    ensures index == |messages| - 1 ==>
              var start := SumCounts(messages[..index]);
              Diff(lines, now) == Shifted(Diff(lines[start..start + messages[index].lineCount], render(e)), start)
  {
    var was := render(messages[index].entry);
    var front := RenderAll(render, EntriesOf(messages)[..index]);
    var back := RenderAll(render, EntriesOf(messages)[index + 1..]);
    Located(render, messages, index, e);
    Stretch(lines, front, was, back);
    if index == |messages| - 1 {
      DiffAfter(front, was, render(e));
      assert front + render(e) + back == front + render(e);
    }
  }

  lemma Recounted(render: Renderer, messages: seq<Message>, index: nat, e: Entry)
    requires Counted(render, messages) && index < |messages|
    ensures Counted(render, messages[index := Message(e, |render(e)|)])
    ensures EntriesOf(messages[index := Message(e, |render(e)|)]) == EntriesOf(messages)[index := e]
  {
  }

  lemma Stretch(lines: seq<Line>, front: seq<Line>, was: seq<Line>, back: seq<Line>)
    requires lines == front + was + back
    ensures lines[|front|..|front| + |was|] == was
    ensures lines[..|front|] == front && lines[|front| + |was|..] == back
    ensures back == [] ==> lines == front + was
  {
  }
}
