/** What becomes of a streamed reply when it ends, and how a message is shown. */
module ReplyTheorems {
  import opened Options
  import opened Utf8
  import opened Markdown
  import opened Transcripts
  import opened TranscriptTheorems
  import Blocks

  /* ---- Titles ---- */

  /** A named model goes before the default one, and either before the provider's name. */
  ghost predicate IsTitle(title: string, event: Event, defaultModel: Option<string>) {
    var named := event.model.Some? && event.model.value != "";
    var known := defaultModel.Some? && defaultModel.value != "";
    && (named ==> title == event.model.value)
    && (!named && known ==> title == defaultModel.value)
    && (!named && !known && event.provider.Codex? ==> title == "Codex (default model)")
    && (!named && !known && event.provider.Claude? ==> title == "Claude (default model)")
  }

  lemma LabelsAreTitles(event: Event, defaultModel: Option<string>)
    ensures IsTitle(Label(event.model, defaultModel, event.provider), event, defaultModel)
  {
  }

  /** A reply of the assistant, under the title its first event gives it. */
  ghost predicate IsReply(e: Entry, event: Event, defaultModel: Option<string>, text: string, streaming: bool) {
    && e.role == Assistant && e.text == text && e.streaming == streaming
    && e.title.Some? && IsTitle(e.title.value, event, defaultModel)
  }

  /* ---- The end of a reply ---- */

  lemma {:induction false} ApplyConcat(entries: seq<Entry>, a: seq<Event>, b: seq<Event>, defaultModel: Option<string>)
    ensures ApplyAll(entries, a + b, defaultModel) == ApplyAll(ApplyAll(entries, a, defaultModel), b, defaultModel)
    decreases |a|
  {
    if a == [] {
      assert a + b == b;
    } else {
      var after := AfterEvent(entries, a[0], defaultModel);
      assert (a + b)[0] == a[0] && (a + b)[1..] == a[1..] + b;
      ApplyConcat(if after.None? then entries else after.value, a[1..], b, defaultModel);
    }
  }

  lemma ApplyOne(entries: seq<Entry>, event: Event, defaultModel: Option<string>)
    ensures var after := AfterEvent(entries, event, defaultModel);
      ApplyAll(entries, [event], defaultModel) == if after.None? then entries else after.value
  {
    assert [event][1..] == [];
  }

  /** The final text replaces what was streamed unless it has fewer bytes. */
  function FinalText(streamed: string, completion: Option<string>): string {
    if completion.Some? && Bytes(streamed) <= Bytes(completion.value) then completion.value else streamed
  }

  lemma CompletionCloses(entries: seq<Entry>, reply: Entry, done: Event, defaultModel: Option<string>)
    requires reply.role == Assistant && reply.streaming && done.kind == MessageCompleted
    ensures ApplyAll(entries + [reply], [done], defaultModel)
         == entries + [reply.(text := FinalText(reply.text, done.text), streaming := false)]
  {
    ApplyOne(entries + [reply], done, defaultModel);
    assert (entries + [reply])[..|entries|] == entries;
  }

  /** A streamed reply that is completed becomes one message that is no longer streaming. It shows the
      completion's text if that is no shorter, in bytes, than the deltas together, and otherwise all of the deltas;
      joined by newlines, its body lines are that text. Earlier messages stay as they were. */
  lemma CompletedRepliesKeepTheirText(alnum: char -> bool, entries: seq<Entry>, event: Event, texts: seq<string>,
                                      done: Event, defaultModel: Option<string>)
    requires texts != [] && !OpenReply(entries) && done.kind == MessageCompleted
    ensures var after := ApplyAll(entries, Deltas(event, texts) + [done], defaultModel);
      var text := FinalText(Concat(texts), done.text);
      && |after| == |entries| + 1 && after[..|entries|] == entries
      && IsReply(after[|entries|], event, defaultModel, text, false)
      && BodyLines(alnum, after[|entries|]) != []
      && Join(Texts(BodyLines(alnum, after[|entries|]))) == Normalize(text)
  {
    var title := Label(event.model, defaultModel, event.provider);
    var reply := Entry(Assistant, Some(title), Concat(texts), true);
    LabelsAreTitles(event, defaultModel);
    ChunkingIsInvisible(entries, event, texts, defaultModel);
    ApplyConcat(entries, Deltas(event, texts), [done], defaultModel);
    CompletionCloses(entries, reply, done, defaultModel);
    TextFidelity(alnum, reply.(text := FinalText(Concat(texts), done.text), streaming := false));
  }

  /** The end of a turn closes an open reply and keeps its text; it changes nothing else. */
  lemma TurnEndsKeepText(entries: seq<Entry>, event: Event, defaultModel: Option<string>)
    requires event.kind == TurnCompleted || event.kind == TurnFailed
    ensures var after := ApplyAll(entries, [event], defaultModel);
      && |after| == |entries| && !OpenReply(after)
      && (forall i :: 0 <= i < |entries| && !(OpenReply(entries) && i == |entries| - 1) ==> after[i] == entries[i])
      && (OpenReply(entries) ==>
            after[|entries| - 1] == entries[|entries| - 1].(streaming := false))
  {
    ApplyOne(entries, event, defaultModel);
  }

  /** A completion without an open reply becomes a message of its own, if it has a text. */
  lemma LateCompletionsAppend(entries: seq<Entry>, event: Event, defaultModel: Option<string>)
    requires event.kind == MessageCompleted && !OpenReply(entries)
    ensures var after := ApplyAll(entries, [event], defaultModel);
      if event.text.None? then after == entries
      else
        && |after| == |entries| + 1 && after[..|entries|] == entries
        && IsReply(after[|entries|], event, defaultModel, event.text.value, false)
  {
    ApplyOne(entries, event, defaultModel);
    LabelsAreTitles(event, defaultModel);
  }

  /** Events that carry no text of the assistant leave the transcript alone. */
  lemma OtherEventsChangeNothing(entries: seq<Entry>, event: Event, defaultModel: Option<string>)
    requires event.kind == OtherEvent
    ensures ApplyAll(entries, [event], defaultModel) == entries
  {
    ApplyOne(entries, event, defaultModel);
  }

  /* ---- History ---- */

  /** The items of a history that name a role and a text, in order. */
  function Complete(items: seq<HistoryItem>): seq<HistoryItem> {
    if items == [] then []
    else (if items[0].role.Some? && items[0].text.Some? then [items[0]] else []) + Complete(items[1..])
  }

  ghost predicate Shows(e: Entry, item: HistoryItem, provider: Provider, defaultModel: Option<string>) {
    && item.role == Some(e.role) && item.text == Some(e.text) && !e.streaming
    && (match e.role
        case User => e.title == None
        case System => e.title == Some("SYSTEM")
        case Assistant =>
          e.title.Some?
          && IsTitle(e.title.value, Event(OtherEvent, provider, None, item.model), defaultModel))
  }

  ghost predicate AllShow(entries: seq<Entry>, items: seq<HistoryItem>, provider: Provider,
                          defaultModel: Option<string>) {
    |entries| == |items| && forall i :: 0 <= i < |items| ==> Shows(entries[i], items[i], provider, defaultModel)
  }

  lemma FirstIsShown(item: HistoryItem, provider: Provider, defaultModel: Option<string>)
    ensures AllShow(HistoryEntry(item, provider, defaultModel), Complete([item]), provider, defaultModel)
  {
    LabelsAreTitles(Event(OtherEvent, provider, None, item.model), defaultModel);
    assert [item][1..] == [];
  }

  lemma ShowConcat(a: seq<Entry>, b: seq<Entry>, m: seq<HistoryItem>, n: seq<HistoryItem>, provider: Provider,
                   defaultModel: Option<string>)
    requires AllShow(a, m, provider, defaultModel) && AllShow(b, n, provider, defaultModel)
    ensures AllShow(a + b, m + n, provider, defaultModel)
  {
  }

  lemma CompleteFirst(items: seq<HistoryItem>)
    requires items != []
    ensures Complete(items) == Complete([items[0]]) + Complete(items[1..])
  {
    assert [items[0]][1..] == [];
  }

  /** A projected history shows exactly its complete items, in order, with their roles and texts. */
  lemma {:induction false} HistoriesAreShownInOrder(items: seq<HistoryItem>, provider: Provider,
                                                    defaultModel: Option<string>)
    ensures AllShow(HistoryEntries(items, provider, defaultModel), Complete(items), provider, defaultModel)
  {
    if items != [] {
      HistoriesAreShownInOrder(items[1..], provider, defaultModel);
      FirstIsShown(items[0], provider, defaultModel);
      ShowConcat(HistoryEntry(items[0], provider, defaultModel), HistoryEntries(items[1..], provider, defaultModel),
                 Complete([items[0]]), Complete(items[1..]), provider, defaultModel);
      CompleteFirst(items);
    }
  }

  /* ---- How a message is shown ---- */

  /** A label stays on its line and keeps its length. */
  lemma {:induction false} LabelsAreOneLine(title: string)
    ensures |InlineLabel(title)| == |title|
    ensures forall i :: 0 <= i < |title| ==>
      InlineLabel(title)[i] == (if title[i] == '\0' then REPLACEMENT
                                else if title[i] in {'\r', '\n'} then ' ' else title[i])
  {
    if title != "" {
      LabelsAreOneLine(title[1..]);
      assert forall i :: 0 < i < |title| ==> title[i] == title[1..][i - 1];
    }
  }

  /** A user's message is its lines in the user's style, and a blank line. */
  lemma UserMessagesAreFramed(alnum: char -> bool, e: Entry)
    requires e.role == User
    ensures var lines, texts := Render(alnum, e), TextLines(e.text);
      && |lines| == |texts| + 1 && lines[|texts|] == Line("", [])
      && forall i :: 0 <= i < |texts| ==> Blocks.IsWhole(lines[i], texts[i], MessageUser)
  {
    assert Render(alnum, e) == StyledLines(TextLines(e.text), MessageUser) + [Line("", [])];
  }

  /** A reply, or a message of the system, stands under its label and a blank line, and is followed by an
      ellipsis while it streams, and by a blank line. */
  lemma MessagesAreFramed(alnum: char -> bool, e: Entry)
    requires e.role != User
    ensures var lines, n := Render(alnum, e), |Render(alnum, e)|;
      && n >= 3 && lines[1] == Line("", []) && lines[n - 1] == Line("", [])
      && Blocks.IsWhole(lines[0], InlineLabel(if e.title.Some? then e.title.value else ""),
                 if e.role == System then LabelSystem else LabelAssistant)
      && (e.streaming ==> n >= 4 && Blocks.IsWhole(lines[n - 2], ELLIPSIS, Streaming))
  {
    assert Render(alnum, e) == Header(e) + Body(alnum, e) + Footer(e);
    assert Header(e)[1] == Line("", []);
  }

  /** A user's message shows the user's text, without a label. */
  lemma UserMessagesShowTheirText(alnum: char -> bool, text: string)
    ensures var lines := Render(alnum, UserEntry(text));
      && |lines| >= 2 && lines[|lines| - 1] == Line("", [])
      && Join(Texts(lines[..|lines| - 1])) == Normalize(text)
      && forall i :: 0 <= i < |lines| - 1 ==> Blocks.IsWhole(lines[i], lines[i].text, MessageUser)
  {
    var shown := StyledLines(TextLines(text), MessageUser);
    var lines := Render(alnum, UserEntry(text));
    assert lines == shown + [Line("", [])] && lines[..|shown|] == shown;
    assert Texts(shown) == TextLines(text);
    JoinSplit(Normalize(text));
  }
}
