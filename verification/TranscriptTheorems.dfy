/** What the transcript's patches and documents promise, for every text and every event. */
module TranscriptTheorems {
  import opened Options
  import opened Markdown
  import opened Splice
  import opened Transcripts

  /* ---- Text and lines ---- */

  function Newlines(text: string): nat {
    if text == "" then 0 else (if text[0] == '\n' then 1 else 0) + Newlines(text[1..])
  }

  function Join(lines: seq<string>): string
    requires lines != []
  {
    if |lines| == 1 then lines[0] else lines[0] + "\n" + Join(lines[1..])
  }

  function Texts(lines: seq<Line>): (r: seq<string>)
    ensures |r| == |lines| && forall i :: 0 <= i < |r| ==> r[i] == lines[i].text
  {
    seq(|lines|, i requires 0 <= i < |lines| => lines[i].text)
  }

  lemma {:induction false} JoinFirst(c: char, line: string, rest: seq<string>)
    ensures Join([[c] + line] + rest) == [c] + Join([line] + rest)
  {
    assert ([[c] + line] + rest)[1..] == rest && ([line] + rest)[1..] == rest;
    if rest != [] {
      assert [c] + line + "\n" + Join(rest) == [c] + (line + "\n" + Join(rest));
    }
  }

  lemma {:induction false} JoinSplit(text: string)
    ensures Join(Split(text)) == text
    ensures |Split(text)| == Newlines(text) + 1
    ensures forall line | line in Split(text) :: '\n' !in line
  {
    if text != "" {
      JoinSplit(text[1..]);
      SplitStep(text);
    }
  }

  lemma SplitStep(text: string)
    requires text != ""
    requires var rest := Split(text[1..]);
             Join(rest) == text[1..] && |rest| == Newlines(text[1..]) + 1 && forall line | line in rest :: '\n' !in line
    ensures Join(Split(text)) == text
    ensures |Split(text)| == Newlines(text) + 1
    ensures forall line | line in Split(text) :: '\n' !in line
  {
    var rest := Split(text[1..]);
    assert rest == [rest[0]] + rest[1..];
    if text[0] == '\n' {
      assert ([""] + rest)[1..] == rest;
      assert "" + "\n" + Join(rest) == text;
    } else {
      JoinFirst(text[0], rest[0], rest[1..]);
    }
  }

  lemma {:induction false} NormalizeConcat(a: string, b: string)
    ensures Normalize(a + b) == Normalize(a) + Normalize(b)
  {
    if a == "" {
      assert a + b == b;
    } else {
      NormalizeConcat(a[1..], b);
      assert (a + b)[1..] == a[1..] + b;
      Associate(NormalChar(a[0]), Normalize(a[1..]), Normalize(b));
    }
  }

  lemma Associate(a: string, b: string, c: string)
    ensures a + (b + c) == (a + b) + c
  {
  }

  lemma {:induction false} NormalizeNewlines(text: string)
    ensures Newlines(Normalize(text)) == Newlines(text)
  {
    if text != "" {
      NormalizeNewlines(text[1..]);
      var rest := Normalize(text[1..]);
      if text[0] != '\r' {
        assert Normalize(text)[1..] == rest;
      } else {
        assert Normalize(text) == rest;
      }
    }
  }

  /** Text appended to a split text continues its last line. */
  function Continue(lines: seq<string>, more: seq<string>): seq<string>
    requires lines != [] && more != []
  {
    lines[..|lines| - 1] + [lines[|lines| - 1] + more[0]] + more[1..]
  }

  lemma {:induction false} SplitConcat(a: string, b: string)
    ensures Split(a + b) == Continue(Split(a), Split(b))
  {
    if a == "" {
      assert a + b == b;
      assert "" + Split(b)[0] == Split(b)[0];
    } else {
      SplitConcat(a[1..], b);
      assert (a + b)[1..] == a[1..] + b;
      var rest, more := Split(a[1..]), Split(b);
      if a[0] == '\n' {
        ContinueAfter(rest, more);
      } else {
        ContinueWith(a[0], rest, more);
      }
    }
  }

  lemma ContinueAfter(rest: seq<string>, more: seq<string>)
    requires rest != [] && more != []
    ensures [""] + Continue(rest, more) == Continue([""] + rest, more)
  {
    assert ([""] + rest)[..|rest|] == [""] + rest[..|rest| - 1];
  }

  lemma ContinueWith(c: char, rest: seq<string>, more: seq<string>)
    requires rest != [] && more != []
    ensures var joined := Continue(rest, more);
            Continue([[c] + rest[0]] + rest[1..], more) == [[c] + joined[0]] + joined[1..]
  {
    if |rest| == 1 {
      assert [c] + (rest[0] + more[0]) == ([c] + rest[0]) + more[0];
    }
  }

  lemma TextLinesConcat(a: string, b: string)
    ensures TextLines(a + b) == Continue(TextLines(a), TextLines(b))
    ensures |TextLines(b)| == Newlines(b) + 1
  {
    NormalizeConcat(a, b);
    SplitConcat(Normalize(a), Normalize(b));
    JoinSplit(Normalize(b));
    NormalizeNewlines(b);
  }

  /* ---- Text fidelity ---- */

  lemma {:induction false} FoldedTexts(step: (string, Option<Fence>) -> Styled, texts: seq<string>,
                                       fence: Option<Fence>)
    requires forall text, f :: step(text, f).line.text == text
    ensures Texts(Fold(step, texts, fence)) == texts
  {
    if texts != [] {
      FoldedTexts(step, texts[1..], step(texts[0], fence).fence);
    }
  }

  lemma StepKeepsText(alnum: char -> bool)
    ensures forall text, f :: Stepper(alnum)(text, f).line.text == text
  {
  }

  function HeaderLength(e: Entry): nat { if e.role == User then 0 else 2 }

  /** The lines of a rendered message between its label and its trailing lines. */
  function BodyLines(alnum: char -> bool, e: Entry): seq<Line> {
    var lines := Render(alnum, e);
    lines[HeaderLength(e)..|lines| - |Footer(e)|]
  }

  /** A rendered message shows its text: joined by newlines, the body lines are the
      provider's text with only NUL replaced and carriage returns removed. */
  lemma TextFidelity(alnum: char -> bool, e: Entry)
    requires !(e.role != User && e.streaming && e.text == "")
    ensures BodyLines(alnum, e) != []
    ensures Join(Texts(BodyLines(alnum, e))) == Normalize(e.text)
    ensures Normalize(e.text) == e.text <== '\0' !in e.text && '\r' !in e.text
  {
    var body := Body(alnum, e);
    assert BodyLines(alnum, e) == body;
    BodyTexts(alnum, e);
    JoinSplit(Normalize(e.text));
    if '\0' !in e.text && '\r' !in e.text {
      NormalizeClean(e.text);
    }
  }

  lemma BodyTexts(alnum: char -> bool, e: Entry)
    requires !(e.role != User && e.streaming && e.text == "")
    ensures Texts(Body(alnum, e)) == TextLines(e.text)
  {
    if e.role != User {
      StepKeepsText(alnum);
      FoldedTexts(Stepper(alnum), TextLines(e.text), None);
    }
  }

  lemma {:induction false} NormalizeClean(text: string)
    requires '\0' !in text && '\r' !in text
    ensures Normalize(text) == text
  {
    if text != "" {
      NormalizeClean(text[1..]);
    }
  }

  /* ---- Streaming ---- */

  /** The lines of an open reply that appended text can no longer change. */
  function Settled(alnum: char -> bool, text: string): seq<Line> {
    var lines := TextLines(text);
    Fold(Stepper(alnum), lines[..|lines| - 1], None)
  }

  /** The lines that `delta` turns the reply's last line into. */
  function Tail(alnum: char -> bool, text: string, delta: string): (r: seq<Line>)
    ensures |r| == |TextLines(delta)|
  {
    var lines, more := TextLines(text), TextLines(delta);
    Fold(Stepper(alnum), [lines[|lines| - 1] + more[0]] + more[1..],
         FoldFence(Stepper(alnum), lines[..|lines| - 1], None))
  }

  lemma StreamedBody(alnum: char -> bool, text: string, delta: string)
    ensures StyleLines(alnum, TextLines(text + delta)) == Settled(alnum, text) + Tail(alnum, text, delta)
  {
    TextLinesConcat(text, delta);
    var lines, more := TextLines(text), TextLines(delta);
    var settled, tail := lines[..|lines| - 1], [lines[|lines| - 1] + more[0]] + more[1..];
    assert Continue(lines, more) == settled + tail;
    FoldConcat(Stepper(alnum), settled, tail, None);
  }

  lemma OpenBody(alnum: char -> bool, text: string)
    ensures var body := StyleLines(alnum, TextLines(text));
            body == Settled(alnum, text) + body[|body| - 1..]
  {
    var lines := TextLines(text);
    var settled := lines[..|lines| - 1];
    assert lines == settled + [lines[|lines| - 1]];
    FoldConcat(Stepper(alnum), settled, [lines[|lines| - 1]], None);
  }

  lemma RenderReply(alnum: char -> bool, e: Entry)
    requires e.role == Assistant
    ensures Render(alnum, e) == Header(e) + Body(alnum, e) + Footer(e)
  {
  }

  lemma Regroup<T>(above: seq<T>, header: seq<T>, body: seq<T>, footer: seq<T>)
    ensures above + (header + body + footer) == (above + header) + body + footer
  {
  }

  /** The document around an open reply's changing lines. */
  lemma OpenDocument(alnum: char -> bool, front: seq<Entry>, e: Entry)
    requires e.role == Assistant
    ensures Document(alnum, front + [e])
         == (Document(alnum, front) + Header(e)) + Body(alnum, e) + Footer(e)
  {
    RenderSnoc((e: Entry) => Render(alnum, e), front, e);
    RenderReply(alnum, e);
    Regroup(Document(alnum, front), Header(e), Body(alnum, e), Footer(e));
  }

  /** Streaming locality: a delta that extends the open reply replaces at most one
      line, which can only be the reply's last text line, and carries at most one
      line more than the delta has newlines. */
  lemma StreamingLocality(alnum: char -> bool, entries: seq<Entry>, event: Event, defaultModel: Option<string>)
    requires OpenReply(entries) && event.kind == MessageDelta
    requires event.text.Some? && event.text.value != ""
    ensures var after := AfterEvent(entries, event, defaultModel);
            && after.Some?
            && var doc, patch := Document(alnum, entries),
                                 Diff(Document(alnum, entries), Document(alnum, after.value));
               && |doc| >= 3
               && patch.end - patch.start <= 1
               && |patch.lines| <= Newlines(event.text.value) + 1
               && (patch.start < patch.end ==>
                     patch.start == |doc| - 3 && entries[|entries| - 1].text != "")
  {
    var last, delta := entries[|entries| - 1], event.text.value;
    var next := last.(text := last.text + delta);
    var front := entries[..|entries| - 1];
    assert entries == front + [last];
    OpenDocument(alnum, front, last);
    OpenDocument(alnum, front, next);
    assert Header(next) == Header(last) && Footer(next) == Footer(last) && |Footer(last)| == 2;
    StreamedBody(alnum, last.text, delta);
    TextLinesConcat(last.text, delta);
    var above := Document(alnum, front) + Header(last);
    var settled := if last.text == "" then [] else Settled(alnum, last.text);
    var was := if last.text == "" then [] else Body(alnum, last)[|Body(alnum, last)| - 1..];
    OpenBody(alnum, last.text);
    assert last.text == "" ==> Settled(alnum, "") == [];
    LocalEdit(above, settled, was, Tail(alnum, last.text, delta), Footer(last),
              Body(alnum, last), Body(alnum, next));
  }

  lemma LocalEdit<T>(above: seq<T>, settled: seq<T>, was: seq<T>, now: seq<T>, below: seq<T>, a: seq<T>, b: seq<T>)
    requires a == settled + was && b == settled + now && |was| <= |now|
    ensures var d := Diff(above + a + below, above + b + below);
            && d.end - d.start <= |was| && |d.lines| <= |now|
            && (d.start < d.end ==>
                  |above| + |settled| <= d.start && d.end <= |above| + |settled| + |was|)
  {
    assert above + a + below == (above + settled) + was + below;
    assert above + b + below == (above + settled) + now + below;
    DiffBetween(above + settled, was, now, below);
  }

  /* ---- Chunking ---- */

  function ApplyAll(entries: seq<Entry>, events: seq<Event>, defaultModel: Option<string>): seq<Entry>
    decreases |events|
  {
    if events == [] then entries
    else
      var after := AfterEvent(entries, events[0], defaultModel);
      ApplyAll(if after.None? then entries else after.value, events[1..], defaultModel)
  }

  function Concat(texts: seq<string>): string {
    if texts == [] then "" else texts[0] + Concat(texts[1..])
  }

  function Deltas(event: Event, texts: seq<string>): (r: seq<Event>)
    ensures |r| == |texts|
  {
    if texts == [] then []
    else [event.(kind := MessageDelta, text := Some(texts[0]))] + Deltas(event, texts[1..])
  }

  lemma {:induction false} DeltasExtend(entries: seq<Entry>, event: Event, texts: seq<string>,
                                        defaultModel: Option<string>)
    requires OpenReply(entries)
    ensures var last := entries[|entries| - 1];
            ApplyAll(entries, Deltas(event, texts), defaultModel)
            == ReplaceLast(entries, last.(text := last.text + Concat(texts)))
    decreases |texts|
  {
    var last := entries[|entries| - 1];
    if texts == [] {
      assert last.text + "" == last.text;
      assert ReplaceLast(entries, last) == entries;
    } else {
      var delta := Deltas(event, texts)[0];
      var next := last.(text := last.text + texts[0]);
      var after := ReplaceLast(entries, next);
      assert texts[0] == "" ==> last.text + texts[0] == last.text && after == entries;
      DeltasExtend(after, event, texts[1..], defaultModel);
      assert (last.text + texts[0]) + Concat(texts[1..]) == last.text + Concat(texts);
      assert after[..|after| - 1] == entries[..|entries| - 1];
      assert Deltas(event, texts)[1..] == Deltas(event, texts[1..]);
    }
  }

  /** However a reply's text is cut into deltas, the same messages, and so the same
      document, result: one streaming reply holding all of the text. */
  lemma ChunkingIsInvisible(entries: seq<Entry>, event: Event, texts: seq<string>, defaultModel: Option<string>)
    requires texts != [] && !OpenReply(entries)
    ensures ApplyAll(entries, Deltas(event, texts), defaultModel)
         == entries + [Entry(Assistant, Some(Label(event.model, defaultModel, event.provider)), Concat(texts), true)]
  {
    var reply := Entry(Assistant, Some(Label(event.model, defaultModel, event.provider)), texts[0], true);
    assert Deltas(event, texts)[1..] == Deltas(event, texts[1..]);
    DeltasExtend(entries + [reply], event, texts[1..], defaultModel);
    assert (entries + [reply])[..|entries|] == entries;
  }
}
