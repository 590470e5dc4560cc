/** The event stream of the task API: the printer the dashboard writes it with and the
    scanner the command line reads it with. */
module Sse {
  import opened Lines

  datatype Frame = Frame(event: string, data: string)

  const EMPTY := Frame("", "")

  predicate IsSpace(c: char) {
    c == ' ' || c == '\t' || c == '\n' || c == '\r' || c == 0x0B as char || c == 0x0C as char
  }

  function TrimLeft(s: string): string {
    if s != [] && IsSpace(s[0]) then TrimLeft(s[1..]) else s
  }

  function TrimRight(s: string): string {
    if s != [] && IsSpace(s[|s| - 1]) then TrimRight(s[..|s| - 1]) else s
  }

  function Trim(s: string): string {
    TrimRight(TrimLeft(s))
  }

  const EVENT := "event:"
  const DATA := "data:"

  /** What one line adds to the frame being read; an unknown field adds nothing. */
  function Absorb(f: Frame, line: string): Frame {
    if EVENT <= line then f.(event := Trim(line[|EVENT|..]))
    else if DATA <= line then f.(data := f.data + Trim(line[|DATA|..]))
    else f
  }

  predicate Worth(f: Frame) {
    f != EMPTY
  }

  /** The frames of some lines, from a frame half read. A frame its empty line never
      closes is dropped. */
  function Frames(f: Frame, lines: seq<string>): seq<Frame>
    decreases |lines|
  {
    if lines == [] then []
    else if lines[0] == "" then (if Worth(f) then [f] else []) + Frames(EMPTY, lines[1..])
    else Frames(Absorb(f, lines[0]), lines[1..])
  }

  /** Feeds frames to a callback until the stream ends or the callback declines. */
  method ScanSse(stream: string, accepts: nat -> bool) returns (seen: seq<Frame>, declined: bool, failed: bool)
    ensures seen <= Frames(EMPTY, Scan(stream))
    ensures !declined ==> seen == Frames(EMPTY, Scan(stream)) && failed == TooLong(stream)
    ensures !declined ==> forall i :: 0 <= i < |seen| ==> accepts(i)
    ensures declined ==> |seen| > 0 && !accepts(|seen| - 1) && !failed && forall i :: 0 <= i < |seen| - 1 ==> accepts(i)
  {
    seen, declined, failed := [], false, false;
    var f, rest := EMPTY, stream;
    ghost var all := Frames(EMPTY, Scan(stream));
    hide Scan, Frames, TooLong, Absorb, Trim;
    while rest != []
      invariant all == seen + Frames(f, Scan(rest)) && TooLong(stream) == TooLong(rest)
      invariant forall i :: 0 <= i < |seen| ==> accepts(i)
      decreases |rest|
    {
      if LineLen(rest) >= MAX {
        NothingBehind(f, rest);
        return seen, false, true;
      }
      ScanStep(rest);
      var line := DropCR(rest[..LineLen(rest)]);
      FramesStep(f, line, Scan(Behind(rest)));
      rest := Behind(rest);
      if line == "" {
        if Worth(f) {
          assert all == (seen + [f]) + Frames(EMPTY, Scan(rest));
          seen := seen + [f];
          if !accepts(|seen| - 1) {
            return seen, true, false;
          }
        }
        f := EMPTY;
      } else {
        f := Absorb(f, line);
      }
    }
    NothingLeft(f);
  }

  lemma NothingBehind(f: Frame, rest: string)
    requires rest != [] && LineLen(rest) >= MAX
    ensures Frames(f, Scan(rest)) == [] && TooLong(rest)
  {
  }

  lemma NothingLeft(f: Frame)
    ensures Frames(f, Scan("")) == [] && !TooLong("")
  {
  }

  lemma FramesStep(f: Frame, line: string, rest: seq<string>)
    ensures Frames(f, [line] + rest)
         == if line == "" then (if Worth(f) then [f] + Frames(EMPTY, rest) else Frames(EMPTY, rest))
            else Frames(Absorb(f, line), rest)
  {
    assert ([line] + rest)[1..] == rest;
  }

  // ------------------------------------------------------------------
  // Printing, and what comes back
  // ------------------------------------------------------------------

  function Printed(f: Frame): string {
    "event: " + f.event + "\ndata: " + f.data + "\n\n"
  }

  function EventLine(f: Frame): string {
    "event: " + f.event
  }

  function DataLine(f: Frame): string {
    "data: " + f.data
  }

  function PrintedLines(f: Frame): seq<string> {
    [EventLine(f), DataLine(f), ""]
  }

  function PrintAll(fs: seq<Frame>): string {
    if fs == [] then "" else Printed(fs[0]) + PrintAll(fs[1..])
  }

  function AllLines(fs: seq<Frame>): seq<string> {
    if fs == [] then [] else PrintedLines(fs[0]) + AllLines(fs[1..])
  }

  function WorthWhile(fs: seq<Frame>): seq<Frame> {
    if fs == [] then [] else (if Worth(fs[0]) then [fs[0]] else []) + WorthWhile(fs[1..])
  }

  /** A part that printing and reading leave alone. */
  ghost predicate Plain(s: string) {
    '\n' !in s && Trim(s) == s && |s| + 7 < MAX
  }

  ghost predicate Printable(f: Frame) {
    Plain(f.event) && Plain(f.data)
  }

  lemma TrimSpaceBefore(s: string)
    ensures Trim(" " + s) == Trim(s)
  {
    assert (" " + s)[1..] == s;
  }

  lemma {:induction false} TrimLeftShorter(s: string)
    ensures |TrimLeft(s)| <= |s|
    decreases |s|
  {
    if s == [] || !IsSpace(s[0]) {
    } else {
      TrimLeftShorter(s[1..]);
    }
  }

  lemma {:induction false} TrimRightShorter(s: string)
    ensures |TrimRight(s)| <= |s|
    ensures TrimRight(s) == s ==> s == [] || !IsSpace(s[|s| - 1])
    decreases |s|
  {
    if s == [] || !IsSpace(s[|s| - 1]) {
    } else {
      TrimRightShorter(s[..|s| - 1]);
    }
  }

  /** A trimmed part has no carriage return at its end for the scanner to take. */
  lemma PlainKeepsItsEnd(prefix: string, s: string)
    requires Trim(s) == s && prefix != [] && prefix[|prefix| - 1] == ' '
    ensures DropCR(prefix + s) == prefix + s
  {
    TrimLeftShorter(s);
    TrimRightShorter(TrimLeft(s));
    TrimLeftWhole(s);
    TrimRightShorter(s);
    if s != [] {
      assert (prefix + s)[|prefix + s| - 1] == s[|s| - 1];
    } else {
      assert prefix + s == prefix;
    }
  }

  /** Trimming that leaves the length leaves the text. */
  lemma {:induction false} TrimLeftWhole(s: string)
    ensures |TrimLeft(s)| == |s| ==> TrimLeft(s) == s
  {
    if s == [] || !IsSpace(s[0]) {
    } else {
      TrimLeftShorter(s[1..]);
    }
  }

  lemma AbsorbPrinted(f: Frame)
    requires Printable(f)
    ensures Absorb(Absorb(EMPTY, EventLine(f)), DataLine(f)) == f && EventLine(f) != "" && DataLine(f) != ""
  {
    var e, d := EventLine(f), DataLine(f);
    assert EVENT <= e && e[|EVENT|..] == " " + f.event;
    assert d[0] == 'd' && !(EVENT <= d) && DATA <= d && d[|DATA|..] == " " + f.data;
    TrimSpaceBefore(f.event);
    TrimSpaceBefore(f.data);
  }

  lemma ThreeAndRest(a: string, b: string, c: string, rest: seq<string>)
    ensures [a, b, c] + rest == [a] + ([b] + ([c] + rest))
  {
  }

  lemma FramesOfPrinted(f: Frame, rest: seq<string>)
    requires Printable(f)
    ensures Frames(EMPTY, PrintedLines(f) + rest) == (if Worth(f) then [f] else []) + Frames(EMPTY, rest)
  {
    AbsorbPrinted(f);
    hide Absorb, EventLine, DataLine, Printable, Frames, Worth;
    var e, d := EventLine(f), DataLine(f);
    ThreeAndRest(e, d, "", rest);
    FramesStep(EMPTY, e, [d] + ([""] + rest));
    FramesStep(Absorb(EMPTY, e), d, [""] + rest);
    FramesStep(f, "", rest);
    assert [] + Frames(EMPTY, rest) == Frames(EMPTY, rest);
  }

  /** The two lines of a frame are whole, fit, and keep their ends. */
  lemma LinesOfOne(f: Frame)
    requires Printable(f)
    ensures var e, d := EventLine(f), DataLine(f);
      '\n' !in e && '\n' !in d && |e| < MAX && |d| < MAX && DropCR(e) == e && DropCR(d) == d
  {
    assert "event: "[6] == ' ' && "data: "[5] == ' ';
    PlainKeepsItsEnd("event: ", f.event);
    PlainKeepsItsEnd("data: ", f.data);
  }

  lemma ClosedOfOne(f: Frame)
    ensures Closed(PrintedLines(f)) == Printed(f)
  {
    var e, d := EventLine(f), DataLine(f);
    assert [e, d, ""][1..] == [d, ""] && [d, ""][1..] == [""] && [""][1..] == [];
    assert Closed([""]) == "\n";
    assert Closed([d, ""]) == d + "\n" + "\n";
    assert Closed([e, d, ""]) == e + "\n" + (d + "\n" + "\n");
  }

  lemma {:induction false} LinesOfPrinted(fs: seq<Frame>)
    requires forall f :: f in fs ==> Printable(f)
    ensures WholeLines(AllLines(fs)) && DropCRs(AllLines(fs)) == AllLines(fs) && Closed(AllLines(fs)) == PrintAll(fs)
    ensures forall l :: l in AllLines(fs) ==> |l| < MAX
    decreases |fs|
  {
    hide EventLine, DataLine, Printable, Printed, Closed, DropCRs;
    if fs == [] {
      ClosedNothing();
    } else {
      var f, rest := fs[0], AllLines(fs[1..]);
      LinesOfPrinted(fs[1..]);
      LinesOfOne(f);
      ClosedOfBoth(PrintedLines(f), rest);
      ClosedOfOne(f);
      DropCRsOfBoth(PrintedLines(f), rest);
      DropCRsOfThree(EventLine(f), DataLine(f), "");
    }
  }

  lemma DropCRsOfThree(a: string, b: string, c: string)
    ensures DropCRs([a, b, c]) == [DropCR(a), DropCR(b), DropCR(c)]
  {
    assert [a, b, c][1..] == [b, c] && [b, c][1..] == [c] && [c][1..] == [];
    assert DropCRs([c]) == [DropCR(c)] && DropCRs([b, c]) == [DropCR(b), DropCR(c)];
  }

  lemma ClosedNothing()
    ensures Closed([]) == "" && DropCRs([]) == []
  {
  }

  lemma {:induction false} FramesOfAll(fs: seq<Frame>, rest: seq<string>)
    requires forall f :: f in fs ==> Printable(f)
    ensures Frames(EMPTY, AllLines(fs) + rest) == WorthWhile(fs) + Frames(EMPTY, rest)
    decreases |fs|
  {
    if fs == [] {
      assert AllLines(fs) + rest == rest;
    } else {
      var more := AllLines(fs[1..]) + rest;
      assert AllLines(fs) + rest == PrintedLines(fs[0]) + more;
      FramesOfPrinted(fs[0], more);
      FramesOfAll(fs[1..], rest);
    }
  }

  /** Scanning printed frames gives back every one of them that says anything, and goes on
      behind them as if they had not been there. */
  lemma PrintedComesBack(fs: seq<Frame>, rest: string)
    requires forall f :: f in fs ==> Printable(f)
    ensures Frames(EMPTY, Scan(PrintAll(fs) + rest)) == WorthWhile(fs) + Frames(EMPTY, Scan(rest))
  {
    LinesOfPrinted(fs);
    ScanClosed(AllLines(fs), rest);
    FramesOfAll(fs, Scan(rest));
  }

  lemma {:induction false} WorthWhileIff(fs: seq<Frame>)
    ensures |WorthWhile(fs)| <= |fs|
    ensures WorthWhile(fs) == fs <==> forall f :: f in fs ==> Worth(f)
    decreases |fs|
  {
    if fs == [] {
    } else {
      WorthWhileIff(fs[1..]);
      assert fs == [fs[0]] + fs[1..];
    }
  }

  /** Round trip: all frames come back exactly when none of them is empty in both parts. */
  lemma RoundTripIff(fs: seq<Frame>)
    requires forall f :: f in fs ==> Printable(f)
    ensures Frames(EMPTY, Scan(PrintAll(fs))) == fs <==> forall f :: f in fs ==> Worth(f)
  {
    PrintedComesBack(fs, "");
    assert PrintAll(fs) + "" == PrintAll(fs);
    assert WorthWhile(fs) + Frames(EMPTY, Scan("")) == WorthWhile(fs);
    WorthWhileIff(fs);
  }

  lemma {:induction false} UnclosedIsDropped(f: Frame, lines: seq<string>)
    requires "" !in lines
    ensures Frames(f, lines) == []
    decreases |lines|
  {
    if lines == [] {
    } else {
      assert lines[0] in lines;
      UnclosedIsDropped(Absorb(f, lines[0]), lines[1..]);
    }
  }

  /** A last frame that its empty line never closes is dropped, however much of it came. */
  lemma CutFrameIsDropped(fs: seq<Frame>, cut: string)
    requires (forall f :: f in fs ==> Printable(f)) && "" !in Scan(cut)
    ensures Frames(EMPTY, Scan(PrintAll(fs) + cut)) == WorthWhile(fs)
  {
    PrintedComesBack(fs, cut);
    UnclosedIsDropped(EMPTY, Scan(cut));
    assert WorthWhile(fs) + [] == WorthWhile(fs);
  }

  // ------------------------------------------------------------------
  // Against the standard
  // ------------------------------------------------------------------

  /** Several data lines of one event, joined the way this scanner joins them. */
  function JoinedHere(ds: seq<string>): string {
    if ds == [] then "" else JoinedHere(ds[..|ds| - 1]) + ds[|ds| - 1]
  }

  /** Joined as section 9.2.6 of the WHATWG HTML standard has it: a newline between lines. */
  function JoinedByStandard(ds: seq<string>): string {
    if ds == [] then ""
    else if |ds| == 1 then ds[0]
    else JoinedByStandard(ds[..|ds| - 1]) + "\n" + ds[|ds| - 1]
  }

  lemma {:induction false} StandardIsLonger(ds: seq<string>)
    ensures |JoinedByStandard(ds)| == |JoinedHere(ds)| + (if ds == [] then 0 else |ds| - 1)
    ensures |ds| == 1 ==> JoinedHere(ds) == ds[0]
    decreases |ds|
  {
    if ds == [] {
    } else {
      StandardIsLonger(ds[..|ds| - 1]);
      assert |ds| == 1 ==> ds[..|ds| - 1] == [];
    }
  }

  /** The scanner reads an event's data as the standard does exactly when it has one data
      line at most, which is all the printer ever writes. */
  lemma AgreesWithStandardIff(ds: seq<string>)
    ensures JoinedHere(ds) == JoinedByStandard(ds) <==> |ds| <= 1
  {
    StandardIsLonger(ds);
  }

  function DataLines(ds: seq<string>): seq<string> {
    seq(|ds|, i requires 0 <= i < |ds| => DATA + ds[i])
  }

  lemma AbsorbData(f: Frame, d: string)
    requires Trim(d) == d
    ensures Absorb(f, DATA + d) == f.(data := f.data + d) && DATA + d != ""
  {
    assert (DATA + d)[0] == 'd' && !(EVENT <= DATA + d) && (DATA + d)[|DATA|..] == d;
  }

  /** That is indeed what the scanner makes of data lines. */
  lemma {:induction false} DataLinesJoin(f: Frame, ds: seq<string>, rest: seq<string>)
    requires forall d :: d in ds ==> Trim(d) == d
    ensures Frames(f, DataLines(ds) + rest) == Frames(f.(data := f.data + JoinedHere(ds)), rest)
    decreases |ds|
  {
    hide Absorb, Frames, Trim;
    if ds == [] {
      assert DataLines(ds) + rest == rest;
      assert f.data + "" == f.data;
    } else {
      var front, d := ds[..|ds| - 1], ds[|ds| - 1];
      assert DataLines(ds) + rest == DataLines(front) + ([DATA + d] + rest);
      DataLinesJoin(f, front, [DATA + d] + rest);
      var g := f.(data := f.data + JoinedHere(front));
      AbsorbData(g, d);
      FramesStep(g, DATA + d, rest);
      assert g.data + d == f.data + JoinedHere(ds);
    }
  }
}
