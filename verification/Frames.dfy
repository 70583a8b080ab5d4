/** How messages are batched into WebSocket frames, and how the dashboard takes the frames apart again. */
module Frames {

  /** The white space and line terminators that `trim` removes. */
  const SPACES: set<char> := {
    '\t', '\n', '\U{000B}', '\U{000C}', '\r', ' ', '\U{00A0}', '\U{1680}', '\U{2000}', '\U{2001}', '\U{2002}',
    '\U{2003}', '\U{2004}', '\U{2005}', '\U{2006}', '\U{2007}', '\U{2008}', '\U{2009}', '\U{200A}', '\U{2028}',
    '\U{2029}', '\U{202F}', '\U{205F}', '\U{3000}', '\U{FEFF}'
  }

  predicate IsSpace(c: char) {
    c in SPACES
  }

  /** The white space and line terminators of sections 12.2 and 12.3 of ECMA-262. */
  lemma WhiteSpaceIs(c: char)
    ensures IsSpace(c) <==>
            || '\t' <= c <= '\r' || c == ' ' || c == '\U{00A0}' || c == '\U{1680}' || '\U{2000}' <= c <= '\U{200A}'
            || c == '\U{2028}' || c == '\U{2029}' || c == '\U{202F}' || c == '\U{205F}' || c == '\U{3000}'
            || c == '\U{FEFF}'
  {
  }

  function TrimLeft(s: string): string {
    if s != "" && IsSpace(s[0]) then TrimLeft(s[1..]) else s
  }

  function TrimRight(s: string): string {
    if s != "" && IsSpace(s[|s| - 1]) then TrimRight(s[..|s| - 1]) else s
  }

  function Trim(s: string): string {
    TrimRight(TrimLeft(s))
  }

  /** The segments between newlines; there is always at least one. */
  function Split(s: string): (segments: seq<string>)
    ensures segments != []
  {
    if s == "" then [""]
    else
      var rest := Split(s[1..]);
      if s[0] == '\n' then [""] + rest else [[s[0]] + rest[0]] + rest[1..]
  }

  function NonBlank(segments: seq<string>): seq<string> {
    if segments == [] then []
    else
      var line := Trim(segments[0]);
      (if line == "" then [] else [line]) + NonBlank(segments[1..])
  }

  /** What the dashboard makes of one frame. */
  function Lines(frame: string): seq<string> {
    NonBlank(Split(frame))
  }

  /** The lines of several frames or messages, one after another. */
  function Flat(frames: seq<string>): seq<string> {
    if frames == [] then [] else Flat(frames[..|frames| - 1]) + Lines(frames[|frames| - 1])
  }

  /** The writer puts one newline between messages. */
  function Join(messages: seq<string>): string
    requires messages != []
  {
    if |messages| == 1 then messages[0]
    else Join(messages[..|messages| - 1]) + "\n" + messages[|messages| - 1]
  }

  /** One line to the dashboard, exactly as it was sent. */
  predicate Clean(m: string) {
    m != "" && '\n' !in m && !IsSpace(m[0]) && !IsSpace(m[|m| - 1])
  }

  /** One more character in front: it ends a segment of its own or joins the first one. */
  function Prepend(c: char, segments: seq<string>): seq<string>
    requires segments != []
  {
    if c == '\n' then [""] + segments else [[c] + segments[0]] + segments[1..]
  }

  lemma SplitPrepends(c: char, s: string)
    ensures Split([c] + s) == Prepend(c, Split(s))
  {
    assert ([c] + s)[1..] == s;
  }

  lemma PrependToBoth(c: char, a: seq<string>, b: seq<string>)
    requires a != []
    ensures Prepend(c, a + b) == Prepend(c, a) + b
  {
    assert (a + b)[1..] == a[1..] + b;
  }

  lemma {:induction false} SplitAtNewline(a: string, b: string)
    ensures Split(a + "\n" + b) == Split(a) + Split(b)
  {
    hide Split, Prepend;
    if a == "" {
      EmptyFirst(b);
      assert a + "\n" + b == ['\n'] + b;
    } else {
      var rest := a[1..];
      SplitAtNewline(rest, b);
      SplitPrepends(a[0], rest + "\n" + b);
      SplitPrepends(a[0], rest);
      PrependToBoth(a[0], Split(rest), Split(b));
      assert a == [a[0]] + rest && a + "\n" + b == [a[0]] + (rest + "\n" + b);
    }
  }

  lemma EmptyFirst(b: string)
    ensures Split(['\n'] + b) == Split("") + Split(b)
  {
    SplitPrepends('\n', b);
  }

  lemma {:induction false} NonBlankOfBoth(a: seq<string>, b: seq<string>)
    ensures NonBlank(a + b) == NonBlank(a) + NonBlank(b)
  {
    if a == [] {
      assert a + b == b;
    } else {
      NonBlankOfBoth(a[1..], b);
      assert (a + b)[1..] == a[1..] + b;
      assert (a + b)[0] == a[0];
    }
  }

  lemma LinesOfBoth(a: string, b: string)
    ensures Lines(a + "\n" + b) == Lines(a) + Lines(b)
  {
    SplitAtNewline(a, b);
    NonBlankOfBoth(Split(a), Split(b));
  }

  lemma {:induction false} FlatOfBoth(a: seq<string>, b: seq<string>)
    ensures Flat(a + b) == Flat(a) + Flat(b)
  {
    hide Lines;
    if b == [] {
      assert a + b == a;
    } else {
      var n := |b| - 1;
      FlatOfBoth(a, b[..n]);
      assert (a + b)[..|a + b| - 1] == a + b[..n];
      assert (a + b)[|a + b| - 1] == b[n];
      assert Flat(a + b) == Flat(a + b[..n]) + Lines(b[n]);
      assert Flat(a) + (Flat(b[..n]) + Lines(b[n])) == (Flat(a) + Flat(b[..n])) + Lines(b[n]);
    }
  }

  lemma FlatOfOne(m: string)
    ensures Flat([m]) == Lines(m)
  {
    assert [m][..0] == [];
  }

  /** Batching is invisible: a frame of several messages reads as the messages one by one. */
  lemma {:induction false} BatchingIsInvisible(messages: seq<string>)
    requires messages != []
    ensures Lines(Join(messages)) == Flat(messages)
  {
    if |messages| == 1 {
      assert messages == [messages[0]];
      FlatOfOne(messages[0]);
    } else {
      BatchingIsInvisible(messages[..|messages| - 1]);
      LinesOfBoth(Join(messages[..|messages| - 1]), messages[|messages| - 1]);
    }
  }

  lemma {:induction false} NoNewlineNoSplit(m: string)
    requires '\n' !in m
    ensures Split(m) == [m]
  {
    if m != "" {
      NoNewlineNoSplit(m[1..]);
      assert m == [m[0]] + m[1..];
    }
  }

  lemma {:induction false} SegmentsHaveNoNewline(s: string)
    ensures forall segment | segment in Split(s) :: '\n' !in segment
  {
    if s != "" {
      SegmentsHaveNoNewline(s[1..]);
    }
  }

  lemma {:induction false} TrimLeftShrinks(s: string)
    ensures |TrimLeft(s)| <= |s| && (|TrimLeft(s)| == |s| ==> TrimLeft(s) == s && (s == "" || !IsSpace(s[0])))
    ensures forall c | c in TrimLeft(s) :: c in s
  {
    if s != "" && IsSpace(s[0]) {
      TrimLeftShrinks(s[1..]);
    }
  }

  lemma {:induction false} TrimRightShrinks(s: string)
    ensures |TrimRight(s)| <= |s| && (|TrimRight(s)| == |s| ==> TrimRight(s) == s && (s == "" || !IsSpace(s[|s| - 1])))
    ensures forall c | c in TrimRight(s) :: c in s
  {
    if s != "" && IsSpace(s[|s| - 1]) {
      TrimRightShrinks(s[..|s| - 1]);
    }
  }

  lemma {:induction false} LinesAreTrimmed(segments: seq<string>)
    requires forall segment | segment in segments :: '\n' !in segment
    ensures forall line | line in NonBlank(segments) :: line != "" && '\n' !in line
  {
    if segments != [] {
      LinesAreTrimmed(segments[1..]);
      TrimLeftShrinks(segments[0]);
      TrimRightShrinks(TrimLeft(segments[0]));
    }
  }

  /** Exactly the clean messages are read back as they were sent. */
  lemma CleanIsOneLine(m: string)
    ensures Lines(m) == [m] <==> Clean(m)
  {
    if Lines(m) == [m] {
      SegmentsHaveNoNewline(m);
      LinesAreTrimmed(Split(m));
      assert m in Lines(m);
    }
    if '\n' !in m {
      NoNewlineNoSplit(m);
      assert NonBlank([m][1..]) == [];
      assert Lines(m) == if Trim(m) == "" then [] else [Trim(m)];
      TrimLeftShrinks(m);
      TrimRightShrinks(TrimLeft(m));
    }
  }

  /** Clean messages arrive as they were sent. */
  lemma {:induction false} CleanArriveAsSent(messages: seq<string>)
    requires forall m | m in messages :: Clean(m)
    ensures Flat(messages) == messages
  {
    if messages != [] {
      CleanArriveAsSent(messages[..|messages| - 1]);
      CleanIsOneLine(messages[|messages| - 1]);
    }
  }
}
