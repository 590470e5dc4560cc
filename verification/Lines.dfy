/** One message a line over a stream: how the two ends of a sandbox's stdio talk. */
module Lines {
  import opened Options

  /** A scanned line is at most this many bytes, its newline included. */
  const MAX: nat := 4194304

  /** How far the first line reaches: to its newline, or to the end of the stream. */
  function LineLen(s: string): (n: nat)
    ensures n <= |s| && (n < |s| ==> s[n] == '\n') && '\n' !in s[..n]
  {
    if s == [] || s[0] == '\n' then 0
    else
      var n := 1 + LineLen(s[1..]);
      assert s[..n] == [s[0]] + s[1..][..n-1];
      n
  }

  /** A line loses one carriage return at its end. */
  function DropCR(line: string): string {
    if line != [] && line[|line| - 1] == '\r' then line[..|line| - 1] else line
  }

  /** The lines a scanner yields before the end of the stream or the first overlong line. */
  function Scan(s: string): seq<string>
    decreases |s|
  {
    if s == [] then []
    else
      var n := LineLen(s);
      if n >= MAX then []
      else if n == |s| then [DropCR(s)]
      else [DropCR(s[..n])] + Scan(s[n+1..])
  }

  /** What is left behind the first line. */
  function Behind(s: string): string {
    if LineLen(s) == |s| then "" else s[LineLen(s) + 1..]
  }

  lemma ScanStep(s: string)
    requires s != [] && LineLen(s) < MAX
    ensures Scan(s) == [DropCR(s[..LineLen(s)])] + Scan(Behind(s)) && TooLong(s) == TooLong(Behind(s))
    ensures |Behind(s)| < |s|
  {
    if LineLen(s) == |s| {
      assert s[..LineLen(s)] == s;
    }
  }

  /** Whether the scanner stopped at an overlong line. */
  predicate TooLong(s: string)
    decreases |s|
  {
    s != [] && (LineLen(s) >= MAX || (LineLen(s) < |s| && TooLong(s[LineLen(s) + 1..])))
  }

  lemma {:induction false} LineLenOf(line: string, rest: string)
    requires '\n' !in line
    ensures LineLen(line + "\n" + rest) == |line|
    ensures (line + "\n" + rest)[..|line|] == line && (line + "\n" + rest)[|line| + 1..] == rest
    decreases |line|
  {
    var s := line + "\n" + rest;
    if line == "" {
    } else {
      assert s[0] == line[0] && line[0] in line;
      assert s[1..] == line[1..] + "\n" + rest;
      LineLenOf(line[1..], rest);
    }
  }

  /** The stream goes on behind one whole line. */
  lemma ScanLine(line: string, rest: string)
    requires '\n' !in line
    ensures |line| < MAX ==>
      Scan(line + "\n" + rest) == [DropCR(line)] + Scan(rest) && TooLong(line + "\n" + rest) == TooLong(rest)
    ensures |line| >= MAX ==> Scan(line + "\n" + rest) == [] && TooLong(line + "\n" + rest)
  {
    LineLenOf(line, rest);
  }

  /** Lines, each closed by a newline. */
  function Closed(lines: seq<string>): string {
    if lines == [] then "" else lines[0] + "\n" + Closed(lines[1..])
  }

  ghost predicate WholeLines(lines: seq<string>) {
    forall l :: l in lines ==> '\n' !in l
  }

  function DropCRs(lines: seq<string>): seq<string> {
    if lines == [] then [] else [DropCR(lines[0])] + DropCRs(lines[1..])
  }

  /** Scanning distributes over whole lines that fit, whatever follows them. */
  lemma {:induction false} ScanClosed(lines: seq<string>, rest: string)
    requires WholeLines(lines) && forall l :: l in lines ==> |l| < MAX
    ensures Scan(Closed(lines) + rest) == DropCRs(lines) + Scan(rest)
    decreases |lines|
  {
    hide Scan, DropCR, LineLen;
    if lines == [] {
      assert Closed(lines) + rest == rest && DropCRs(lines) + Scan(rest) == Scan(rest);
    } else {
      var tail := Closed(lines[1..]) + rest;
      ClosedCons(lines, rest);
      ScanLine(lines[0], tail);
      ScanClosed(lines[1..], rest);
      assert [DropCR(lines[0])] + (DropCRs(lines[1..]) + Scan(rest)) == DropCRs(lines) + Scan(rest);
    }
  }

  lemma ClosedCons(lines: seq<string>, rest: string)
    requires lines != []
    ensures Closed(lines) + rest == lines[0] + "\n" + (Closed(lines[1..]) + rest)
  {
  }

  /** The first line that does not fit ends the stream at what came before it. */
  lemma OverlongEndsAtPrefix(lines: seq<string>, long: string, rest: string)
    requires WholeLines(lines) && (forall l :: l in lines ==> |l| < MAX) && '\n' !in long && |long| >= MAX
    ensures Scan(Closed(lines) + (long + "\n" + rest)) == DropCRs(lines)
  {
    ScanClosed(lines, long + "\n" + rest);
    ScanLine(long, rest);
  }

  // ------------------------------------------------------------------
  // Messages
  // ------------------------------------------------------------------

  datatype Codec<!T> = Codec(encode: T -> string, decode: string -> Option<T>)

  /** What JSON gives: one line, no carriage return at its end, and decoding undoes encoding. */
  ghost predicate Lawful<T(!new)>(c: Codec<T>) {
    forall x :: '\n' !in c.encode(x) && DropCR(c.encode(x)) == c.encode(x) && c.decode(c.encode(x)) == Some(x)
  }

  /** What decoding lines yields; a line that is no message is skipped. */
  function Decoded<T>(c: Codec<T>, lines: seq<string>): seq<T> {
    if lines == [] then []
    else
      var front, x := Decoded(c, lines[..|lines| - 1]), c.decode(lines[|lines| - 1]);
      if x.Some? then front + [x.value] else front
  }

  /** Reads messages until the scanner stops. */
  method ReadMessages<T>(c: Codec<T>, stream: string) returns (messages: seq<T>)
    ensures messages == Decoded(c, Scan(stream))
  {
    messages := [];
    var rest := stream;
    ghost var seen: seq<string> := [];
    hide Scan, Decoded;
    DecodedNothing(c);
    while rest != []
      invariant Scan(stream) == seen + Scan(rest) && messages == Decoded(c, seen)
      decreases |rest|
    {
      if LineLen(rest) >= MAX {
        ScanStops(rest);
        assert seen + [] == seen;
        return;
      }
      ScanStep(rest);
      var line := DropCR(rest[..LineLen(rest)]);
      assert seen + ([line] + Scan(Behind(rest))) == (seen + [line]) + Scan(Behind(rest));
      DecodedSnoc(c, seen, line);
      rest, seen := Behind(rest), seen + [line];
      var x := c.decode(line);
      if x.Some? {
        messages := messages + [x.value];
      }
    }
    ScanNothing();
    assert seen + [] == seen;
  }

  lemma ScanStops(s: string)
    requires s != [] && LineLen(s) >= MAX
    ensures Scan(s) == []
  {
  }

  lemma ScanNothing()
    ensures Scan("") == []
  {
  }

  lemma DecodedNothing<T>(c: Codec<T>)
    ensures Decoded(c, []) == []
  {
  }

  lemma DecodedSnoc<T>(c: Codec<T>, lines: seq<string>, line: string)
    ensures Decoded(c, lines + [line])
         == if c.decode(line).Some? then Decoded(c, lines) + [c.decode(line).value] else Decoded(c, lines)
  {
    assert (lines + [line])[..|lines|] == lines;
  }

  /** What is written on the stream: messages, with foreign lines in between. */
  datatype Item<T> = Message(value: T) | Foreign(line: string)

  function LineOf<T>(c: Codec<T>, item: Item<T>): string {
    match item case Message(x) => c.encode(x) case Foreign(line) => line
  }

  function LinesOf<T>(c: Codec<T>, items: seq<Item<T>>): seq<string> {
    seq(|items|, i requires 0 <= i < |items| => LineOf(c, items[i]))
  }

  function MessagesOf<T>(items: seq<Item<T>>): seq<T> {
    if items == [] then []
    else
      var front, last := MessagesOf(items[..|items| - 1]), items[|items| - 1];
      if last.Message? then front + [last.value] else front
  }

  /** A foreign line is one line and no message. */
  ghost predicate Proper<T>(c: Codec<T>, items: seq<Item<T>>) {
    forall i :: i in items && i.Foreign? ==> '\n' !in i.line && c.decode(DropCR(i.line)).None?
  }

  lemma {:induction false} DecodedAre<T(!new)>(c: Codec<T>, items: seq<Item<T>>)
    requires Lawful(c) && Proper(c, items)
    ensures Decoded(c, DropCRs(LinesOf(c, items))) == MessagesOf(items)
    decreases |items|
  {
    if items == [] {
    } else {
      var front, last := items[..|items| - 1], items[|items| - 1];
      assert items == front + [last];
      DecodedAre(c, front);
      assert LinesOf(c, items) == LinesOf(c, front) + [LineOf(c, last)];
      DropCRsOfBoth(LinesOf(c, front), [LineOf(c, last)]);
      assert DropCRs([LineOf(c, last)]) == [DropCR(LineOf(c, last))];
      var lines := DropCRs(LinesOf(c, items));
      assert lines[..|lines| - 1] == DropCRs(LinesOf(c, front));
    }
  }

  lemma {:induction false} DropCRsOfBoth(a: seq<string>, b: seq<string>)
    ensures DropCRs(a + b) == DropCRs(a) + DropCRs(b)
    decreases |a|
  {
    if a == [] {
      assert a + b == b;
    } else {
      assert (a + b)[1..] == a[1..] + b;
      DropCRsOfBoth(a[1..], b);
    }
  }

  lemma LinesAreWhole<T(!new)>(c: Codec<T>, items: seq<Item<T>>)
    requires Lawful(c) && Proper(c, items)
    ensures WholeLines(LinesOf(c, items))
  {
    forall l | l in LinesOf(c, items) ensures '\n' !in l {
      var i :| 0 <= i < |items| && LinesOf(c, items)[i] == l;
      assert items[i] in items;
    }
  }

  /** Round trip: what is sent is what is read, in order, with any foreign lines in between. */
  lemma RoundTrip<T(!new)>(c: Codec<T>, items: seq<Item<T>>)
    requires Lawful(c) && Proper(c, items) && forall i :: i in items ==> |LineOf(c, i)| < MAX
    ensures Decoded(c, Scan(Closed(LinesOf(c, items)))) == MessagesOf(items)
  {
    var lines := LinesOf(c, items);
    LinesAreWhole(c, items);
    forall l | l in lines ensures |l| < MAX {
      var i :| 0 <= i < |items| && lines[i] == l;
      assert items[i] in items;
    }
    ScanClosed(lines, "");
    assert Closed(lines) + "" == Closed(lines);
    assert DropCRs(lines) + Scan("") == DropCRs(lines);
    DecodedAre(c, items);
  }

  /** With an overlong line the reader gets exactly the messages sent before it. */
  lemma OverlongTruncates<T(!new)>(c: Codec<T>, items: seq<Item<T>>, long: Item<T>, later: seq<Item<T>>)
    requires Lawful(c) && Proper(c, items + [long] + later) && |LineOf(c, long)| >= MAX
    requires forall i :: i in items ==> |LineOf(c, i)| < MAX
    ensures Decoded(c, Scan(Closed(LinesOf(c, items + [long] + later)))) == MessagesOf(items)
  {
    var all := items + [long] + later;
    assert forall i :: i in items ==> i in all;
    assert long in all;
    LinesAreWhole(c, items);
    var lines, l := LinesOf(c, items), LineOf(c, long);
    forall x | x in lines ensures |x| < MAX {
      var i :| 0 <= i < |items| && lines[i] == x;
      assert items[i] in items;
    }
    assert LinesOf(c, all) == lines + ([l] + LinesOf(c, later));
    ClosedOfBoth(lines, [l] + LinesOf(c, later));
    assert ([l] + LinesOf(c, later))[1..] == LinesOf(c, later);
    OverlongEndsAtPrefix(lines, l, Closed(LinesOf(c, later)));
    DecodedAre(c, items);
  }

  lemma {:induction false} ClosedOfBoth(a: seq<string>, b: seq<string>)
    ensures Closed(a + b) == Closed(a) + Closed(b)
    decreases |a|
  {
    if a == [] {
      assert a + b == b;
    } else {
      assert (a + b)[1..] == a[1..] + b;
      ClosedOfBoth(a[1..], b);
      assert a[0] + "\n" + (Closed(a[1..]) + Closed(b)) == a[0] + "\n" + Closed(a[1..]) + Closed(b);
    }
  }

  function Sent<T>(xs: seq<T>): seq<Item<T>> {
    seq(|xs|, i requires 0 <= i < |xs| => Message(xs[i]))
  }

  lemma {:induction false} SentMessages<T>(xs: seq<T>)
    ensures MessagesOf(Sent(xs)) == xs
    decreases |xs|
  {
    if xs == [] {
    } else {
      SentMessages(xs[..|xs| - 1]);
      assert Sent(xs)[..|xs| - 1] == Sent(xs[..|xs| - 1]);
    }
  }

  /** Sent messages all arrive exactly when every one of them fits a line. */
  lemma AllArriveIff<T(!new)>(c: Codec<T>, xs: seq<T>)
    requires Lawful(c)
    ensures Decoded(c, Scan(Closed(LinesOf(c, Sent(xs))))) == xs <==> forall x :: x in xs ==> |c.encode(x)| < MAX
  {
    SentMessages(xs);
    if forall x :: x in xs ==> |c.encode(x)| < MAX {
      RoundTrip(c, Sent(xs));
    } else {
      var n := FirstLong(c, xs);
      var items := Sent(xs);
      assert items == items[..n] + [items[n]] + items[n+1..];
      assert items[..n] == Sent(xs[..n]);
      OverlongTruncates(c, items[..n], items[n], items[n+1..]);
      SentMessages(xs[..n]);
    }
  }

  lemma {:induction false} FirstLong<T(!new)>(c: Codec<T>, xs: seq<T>) returns (n: nat)
    requires exists x :: x in xs && |c.encode(x)| >= MAX
    ensures n < |xs| && |c.encode(xs[n])| >= MAX && forall i :: 0 <= i < n ==> |c.encode(xs[i])| < MAX
  {
    n := 0;
    while |c.encode(xs[n])| < MAX
      invariant n < |xs| && forall i :: 0 <= i < n ==> |c.encode(xs[i])| < MAX
      invariant exists x :: x in xs[n..] && |c.encode(x)| >= MAX
      decreases |xs| - n
    {
      var x :| x in xs[n..] && |c.encode(x)| >= MAX;
      assert xs[n..] == [xs[n]] + xs[n+1..];
      assert x in xs[n+1..];
      n := n + 1;
    }
  }
}
