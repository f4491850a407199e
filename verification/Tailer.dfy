/** Tailing the DNS log: a chunked, budgeted reader against a plain line splitter. */
module Tailer {
  import opened Prelude

  newtype byte = x: int | 0 <= x < 256

  /** The bytes one pass may use for ordinary lines. */
  function Budget(maxBytes: nat): nat {
    if maxBytes == 0 then MAX_PASS else maxBytes
  }

  datatype Observation = Observation(domain: string, queryType: string, client: string)

  type Parser = seq<byte> -> Option<Observation>

  /** The bytes that `Run` lets one pass use. */
  function RunBudget(maxBytes: nat): nat {
    if maxBytes == 0 || maxBytes > MAX_PASS then MAX_PASS else maxBytes
  }

  const NEWLINE: byte := 10
  const MAX_LINE: nat := 131072
  const MAX_DRAIN: nat := 8388608
  const MAX_PASS: nat := 1048576
  const BUFFER: nat := 65536

  // ---- the plain splitter ----

  predicate NoNewline(s: seq<byte>) {
    NEWLINE !in s
  }

  /** What a log yields: its complete lines of at most 128 KiB, parsed, in order. */
  function Observed(s: seq<byte>, parse: Parser): seq<Observation> {
    var n := FirstNewline(s);
    if n == |s| then []
    else ParsedLine(s[..n], parse) + Observed(s[n + 1..], parse)
  }

  function FirstNewline(s: seq<byte>): (n: nat)
    ensures n <= |s| && NoNewline(s[..n]) && (n < |s| ==> s[n] == NEWLINE)
  {
    if s == [] || s[0] == NEWLINE then 0
    else
      var n := FirstNewline(s[1..]);
      assert s[..n + 1] == [s[0]] + s[1..][..n];
      n + 1
  }

  function ParsedLine(line: seq<byte>, parse: Parser): seq<Observation> {
    if |line| > MAX_LINE then []
    else match parse(line) case None => [] case Some(o) => [o]
  }

  predicate Whole(s: seq<byte>) {
    s == [] || s[|s| - 1] == NEWLINE
  }

  lemma {:induction false} FirstNewlineOf(s: seq<byte>, n: nat)
    requires n < |s| && NoNewline(s[..n]) && s[n] == NEWLINE
    ensures FirstNewline(s) == n
  {
    if n > 0 {
      assert s[..n][0] == s[0] && s[..n] == [s[0]] + s[1..][..n - 1];
      FirstNewlineOf(s[1..], n - 1);
    }
  }

  lemma {:induction false} FirstNewlineAtMost(s: seq<byte>, k: nat)
    requires k < |s| && s[k] == NEWLINE
    ensures FirstNewline(s) <= k
  {
    if k > 0 && s[0] != NEWLINE {
      FirstNewlineAtMost(s[1..], k - 1);
    }
  }

  lemma {:induction false} FirstNewlineAtLeast(s: seq<byte>, k: nat)
    requires k <= |s| && NoNewline(s[..k])
    ensures FirstNewline(s) >= k
  {
    if k > 0 {
      assert s[..k][0] == s[0] && s[..k] == [s[0]] + s[1..][..k - 1];
      FirstNewlineAtLeast(s[1..], k - 1);
    }
  }

  lemma {:induction false} FirstNewlineNone(s: seq<byte>)
    requires NoNewline(s)
    ensures FirstNewline(s) == |s|
  {
    if s != [] {
      assert s == [s[0]] + s[1..];
      FirstNewlineNone(s[1..]);
    }
  }

  lemma {:induction false} WholeHasNewline(s: seq<byte>)
    requires Whole(s) && s != []
    ensures FirstNewline(s) < |s|
  {
    if s[0] != NEWLINE {
      assert s[1..] != [] && s[1..][|s[1..]| - 1] == s[|s| - 1];
      WholeHasNewline(s[1..]);
    }
  }

  lemma FirstOfConcat(a: seq<byte>, b: seq<byte>)
    requires Whole(a) && a != []
    ensures FirstNewline(a + b) == FirstNewline(a) < |a| && Whole(a[FirstNewline(a) + 1..])
  {
    WholeHasNewline(a);
    var n := FirstNewline(a);
    assert (a + b)[..n] == a[..n] && (a + b)[n] == NEWLINE;
    FirstNewlineOf(a + b, n);
  }

  /** Splitting whole lines and then the rest is splitting all of it. */
  lemma {:induction false} ObservedConcat(a: seq<byte>, b: seq<byte>, parse: Parser)
    requires Whole(a)
    ensures Observed(a + b, parse) == Observed(a, parse) + Observed(b, parse)
    decreases |a|
  {
    hide NoNewline, FirstNewline, ParsedLine, Whole;
    if a == [] {
      assert a + b == b;
    } else {
      var n := FirstNewline(a);
      assert FirstNewline(a + b) == n && n < |a| && Whole(a[n + 1..]) by { FirstOfConcat(a, b); }
      var rest := a[n + 1..];
      assert (a + b)[..n] == a[..n];
      assert (a + b)[n + 1..] == rest + b;
      ObservedConcat(rest, b, parse);
      assert ParsedLine(a[..n], parse) + (Observed(rest, parse) + Observed(b, parse))
          == ParsedLine(a[..n], parse) + Observed(rest, parse) + Observed(b, parse);
    }
  }

  lemma ObservedOneLine(line: seq<byte>, parse: Parser)
    requires NoNewline(line)
    ensures Observed(line + [NEWLINE], parse) == ParsedLine(line, parse)
    ensures Observed(line, parse) == []
  {
    var s := line + [NEWLINE];
    assert s[..|line|] == line;
    FirstNewlineOf(s, |line|);
    FirstNewlineNone(line);
    FirstNewlineNone([]);
    assert s[|line| + 1..] == [];
  }

  // ---- discarded tails ----

  /** A stretch of an overlong line that a pass gave up on: the next pass starts after it, within the line. */
  datatype Cut = Cut(lo: nat, hi: nat)

  /** Whole lines, cut, whole lines, cut and so on, up to `end`. */
  ghost predicate CutsOk(bytes: seq<byte>, from: nat, cuts: seq<Cut>, end: nat)
    decreases |cuts|
  {
    if cuts == [] then from <= end <= |bytes| && Whole(bytes[from..end])
    else
      && from <= cuts[0].lo && cuts[0].lo + MAX_LINE < cuts[0].hi <= |bytes|
      && Whole(bytes[from..cuts[0].lo]) && NoNewline(bytes[cuts[0].lo..cuts[0].hi])
      && CutsOk(bytes, cuts[0].hi, cuts[1..], end)
  }

  /** What is emitted: the observations of each stretch between cuts. */
  ghost function Emission(bytes: seq<byte>, from: nat, cuts: seq<Cut>, end: nat, parse: Parser): seq<Observation>
    requires CutsOk(bytes, from, cuts, end)
    decreases |cuts|
  {
    if cuts == [] then Observed(bytes[from..end], parse)
    else Observed(bytes[from..cuts[0].lo], parse) + Emission(bytes, cuts[0].hi, cuts[1..], end, parse)
  }

  /** What the rest of a cut line yields when it is read as a line of its own before `stop`. */
  function Tail(bytes: seq<byte>, hi: nat, stop: nat, parse: Parser): seq<Observation>
    requires hi <= stop <= |bytes|
  {
    var n := FirstNewline(bytes[hi..stop]);
    if n < stop - hi then ParsedLine(bytes[hi..hi + n], parse) else []
  }

  ghost predicate TailsQuiet(bytes: seq<byte>, hi: nat, cuts: seq<Cut>, end: nat, parse: Parser)
    requires CutsOk(bytes, hi, cuts, end)
    decreases |cuts|
  {
    if cuts == [] then Tail(bytes, hi, end, parse) == []
    else Tail(bytes, hi, cuts[0].lo, parse) == [] && TailsQuiet(bytes, cuts[0].hi, cuts[1..], end, parse)
  }

  lemma {:induction false} CutsInOrder(bytes: seq<byte>, from: nat, cuts: seq<Cut>, end: nat)
    requires CutsOk(bytes, from, cuts, end)
    ensures from <= end <= |bytes|
    decreases |cuts|
  {
    if cuts != [] {
      CutsInOrder(bytes, cuts[0].hi, cuts[1..], end);
    }
  }

  /** More whole lines after the last cut, in a log that has grown. */
  lemma {:induction false} CutsExtend(was: seq<byte>, bytes: seq<byte>, from: nat, cuts: seq<Cut>, end: nat, next: nat,
                                      parse: Parser)
    requires CutsOk(was, from, cuts, end) && was <= bytes && end <= next <= |bytes| && Whole(bytes[end..next])
    ensures CutsOk(bytes, from, cuts, next)
    ensures Emission(bytes, from, cuts, next, parse) == Emission(was, from, cuts, end, parse) + Observed(bytes[end..next], parse)
    decreases |cuts|
  {
    hide Observed, NoNewline;
    if cuts == [] {
      assert bytes[from..next] == was[from..end] + bytes[end..next];
      ObservedConcat(was[from..end], bytes[end..next], parse);
    } else {
      var cut := cuts[0];
      assert bytes[from..cut.lo] == was[from..cut.lo] && bytes[cut.lo..cut.hi] == was[cut.lo..cut.hi];
      CutsExtend(was, bytes, cut.hi, cuts[1..], end, next, parse);
      var first, rest, more := Observed(bytes[from..cut.lo], parse), Emission(was, cut.hi, cuts[1..], end, parse),
                               Observed(bytes[end..next], parse);
      assert first + (rest + more) == (first + rest) + more;
    }
  }

  /** One more cut. */
  lemma {:induction false} CutsSnoc(bytes: seq<byte>, from: nat, cuts: seq<Cut>, cut: Cut, parse: Parser)
    requires CutsOk(bytes, from, cuts, cut.lo)
    requires cut.lo + MAX_LINE < cut.hi <= |bytes| && NoNewline(bytes[cut.lo..cut.hi])
    ensures CutsOk(bytes, from, cuts + [cut], cut.hi)
    ensures Emission(bytes, from, cuts + [cut], cut.hi, parse) == Emission(bytes, from, cuts, cut.lo, parse)
    decreases |cuts|
  {
    hide NoNewline, Observed;
    var more := cuts + [cut];
    if cuts == [] {
      assert more[0] == cut && more[1..] == [] && bytes[cut.hi..cut.hi] == [];
      NothingIn([], parse);
      assert Emission(bytes, cut.hi, more[1..], cut.hi, parse) == [];
    } else {
      assert more[0] == cuts[0] && more[1..] == cuts[1..] + [cut];
      CutsSnoc(bytes, cuts[0].hi, cuts[1..], cut, parse);
    }
  }

  lemma NothingIn(s: seq<byte>, parse: Parser)
    requires NoNewline(s)
    ensures Observed(s, parse) == []
  {
    FirstNewlineNone(s);
  }

  /** A log that starts within an overlong line yields what comes after that line. */
  lemma ObservedAfterLong(s: seq<byte>, n: nat, parse: Parser)
    requires MAX_LINE < n < |s| && NoNewline(s[..n]) && s[n] == NEWLINE
    ensures Observed(s, parse) == Observed(s[n + 1..], parse)
  {
    hide NoNewline, Observed;
    assert FirstNewline(s) == n by { FirstNewlineOf(s, n); }
    hide FirstNewline;
    FirstLine(s, parse);
    var line := s[..n];
    assert |line| > MAX_LINE;
  }

  /** The first stretch after a cut, against the same stretch with its line read whole from `lo` on. */
  lemma AfterCut(bytes: seq<byte>, lo: nat, hi: nat, stop: nat, parse: Parser)
    requires lo + MAX_LINE < hi <= stop <= |bytes| && NoNewline(bytes[lo..hi]) && Whole(bytes[hi..stop])
    ensures Observed(bytes[hi..stop], parse) == Tail(bytes, hi, stop, parse) + Observed(bytes[lo..stop], parse)
  {
    hide ParsedLine, NoNewline, Observed;
    var s, t := bytes[lo..stop], bytes[hi..stop];
    if hi == stop {
      assert t == [] && s == bytes[lo..hi];
      JoinedNoNewline([], []);
      NothingIn(t, parse);
      NothingIn(s, parse);
    } else {
      WholeHasNewline(t);
      var n := FirstNewline(t);
      FirstLine(t, parse);
      LongLine(bytes, lo, hi, stop, n, parse);
      assert t[..n] == bytes[hi..hi + n];
    }
  }

  lemma FirstLine(s: seq<byte>, parse: Parser)
    requires FirstNewline(s) < |s|
    ensures Observed(s, parse) == ParsedLine(s[..FirstNewline(s)], parse) + Observed(s[FirstNewline(s) + 1..], parse)
  {
  }

  lemma LongLine(bytes: seq<byte>, lo: nat, hi: nat, stop: nat, n: nat, parse: Parser)
    requires lo + MAX_LINE < hi && hi + n < stop <= |bytes|
    requires NoNewline(bytes[lo..hi]) && NoNewline(bytes[hi..stop][..n]) && bytes[hi + n] == NEWLINE
    ensures Observed(bytes[lo..stop], parse) == Observed(bytes[hi..stop][n + 1..], parse)
  {
    hide Observed, NoNewline;
    var s, t := bytes[lo..stop], bytes[hi..stop];
    var k := hi - lo + n;
    assert s[..k] == bytes[lo..hi] + t[..n];
    assert s[k] == bytes[hi + n] && s[k + 1..] == t[n + 1..];
    JoinedNoNewline(bytes[lo..hi], t[..n]);
    ObservedAfterLong(s, k, parse);
  }

  /** After a cut: the emission is that of the plain splitter exactly when the cut lines' tails are quiet. */
  lemma {:induction false} EmissionAfterCut(bytes: seq<byte>, lo: nat, hi: nat, cuts: seq<Cut>, end: nat, parse: Parser)
    requires lo + MAX_LINE < hi && CutsOk(bytes, hi, cuts, end) && hi <= end <= |bytes| && NoNewline(bytes[lo..hi])
    ensures |Observed(bytes[lo..end], parse)| <= |Emission(bytes, hi, cuts, end, parse)|
    ensures Emission(bytes, hi, cuts, end, parse) == Observed(bytes[lo..end], parse) <==> TailsQuiet(bytes, hi, cuts, end, parse)
    ensures TailsQuiet(bytes, hi, cuts, end, parse) <==>
              |Emission(bytes, hi, cuts, end, parse)| == |Observed(bytes[lo..end], parse)|
    decreases |cuts|
  {
    hide Observed, NoNewline, Whole, Tail;
    if cuts == [] {
      AfterCut(bytes, lo, hi, end, parse);
    } else {
      var cut := cuts[0];
      CutsInOrder(bytes, cut.hi, cuts[1..], end);
      AfterCut(bytes, lo, hi, cut.lo, parse);
      if cut.lo == hi {
        assert bytes[lo..cut.hi] == bytes[lo..hi] + bytes[hi..cut.hi];
        JoinedNoNewline(bytes[lo..hi], bytes[hi..cut.hi]);
        EmissionAfterCut(bytes, lo, cut.hi, cuts[1..], end, parse);
        assert bytes[hi..cut.lo] == [];
        NothingIn([], parse) by { JoinedNoNewline([], []); }
      } else {
        EmissionAfterCut(bytes, cut.lo, cut.hi, cuts[1..], end, parse);
        assert bytes[lo..end] == bytes[lo..cut.lo] + bytes[cut.lo..end];
        WholeFrom(bytes, lo, hi, cut.lo);
        ObservedConcat(bytes[lo..cut.lo], bytes[cut.lo..end], parse);
      }
    }
  }

  lemma JoinedNoNewline(a: seq<byte>, b: seq<byte>)
    ensures NoNewline(a) && NoNewline(b) ==> NoNewline(a + b)
    ensures NoNewline([])
  {
  }

  lemma WholeFrom(bytes: seq<byte>, lo: nat, hi: nat, stop: nat)
    requires lo <= hi < stop <= |bytes| && Whole(bytes[hi..stop])
    ensures Whole(bytes[lo..stop])
  {
    assert bytes[hi..stop][stop - hi - 1] == bytes[lo..stop][stop - lo - 1];
  }

  /**
   * Reading in passes is splitting once, for every run: exactly when the rest of each cut line, which the
   * reader takes for a line of its own, does not parse. Without a cut that always holds.
   */
  lemma EmissionIsSplitting(bytes: seq<byte>, from: nat, cuts: seq<Cut>, end: nat, parse: Parser)
    requires CutsOk(bytes, from, cuts, end) && from <= end <= |bytes|
    ensures Emission(bytes, from, cuts, end, parse) == Observed(bytes[from..end], parse)
            <==> cuts == [] || TailsQuiet(bytes, cuts[0].hi, cuts[1..], end, parse)
  {
    hide Observed, NoNewline, Whole, TailsQuiet;
    if cuts != [] {
      var cut := cuts[0];
      CutsInOrder(bytes, cut.hi, cuts[1..], end);
      EmissionAfterCut(bytes, cut.lo, cut.hi, cuts[1..], end, parse);
      assert bytes[from..end] == bytes[from..cut.lo] + bytes[cut.lo..end];
      ObservedConcat(bytes[from..cut.lo], bytes[cut.lo..end], parse);
      SamePrefix(Observed(bytes[from..cut.lo], parse), Emission(bytes, cut.hi, cuts[1..], end, parse),
                 Observed(bytes[cut.lo..end], parse));
    }
  }

  /** Every line of the stretch, the last unfinished one included, fits into 128 KiB. */
  ghost predicate LinesFit(bytes: seq<byte>, from: nat, end: nat)
    requires end <= |bytes|
  {
    forall i, j | from <= i <= j <= end && NoNewline(bytes[i..j]) :: j - i <= MAX_LINE
  }

  /** What can be told from the log alone: where all lines fit, nothing is ever cut. */
  lemma LinesFitIsSplitting(bytes: seq<byte>, from: nat, cuts: seq<Cut>, end: nat, parse: Parser)
    requires CutsOk(bytes, from, cuts, end) && from <= end <= |bytes| && LinesFit(bytes, from, end)
    ensures cuts == [] && Emission(bytes, from, cuts, end, parse) == Observed(bytes[from..end], parse)
  {
    hide NoNewline, Observed;
    if cuts != [] {
      CutsInOrder(bytes, cuts[0].hi, cuts[1..], end);
    }
  }

  lemma SamePrefix(a: seq<Observation>, b: seq<Observation>, c: seq<Observation>)
    ensures a + b == a + c <==> b == c
  {
    assert (a + b)[|a|..] == b && (a + c)[|a|..] == c;
  }

  // ---- how far a run has come ----

  function Newlines(s: seq<byte>): nat {
    if s == [] then 0 else (if s[0] == NEWLINE then 1 else 0) + Newlines(s[1..])
  }

  lemma {:induction false} NewlinesConcat(a: seq<byte>, b: seq<byte>)
    ensures Newlines(a + b) == Newlines(a) + Newlines(b)
  {
    if a == [] {
      assert a + b == b;
    } else {
      assert (a + b)[0] == a[0] && (a + b)[1..] == a[1..] + b;
      NewlinesConcat(a[1..], b);
    }
  }

  lemma WholeCounts(s: seq<byte>)
    requires Whole(s) && s != []
    ensures Newlines(s) > 0
  {
    var n := |s| - 1;
    assert s == s[..n] + [NEWLINE] && [NEWLINE][1..] == [];
    NewlinesConcat(s[..n], [NEWLINE]);
  }

  /** The complete lines between the start and the cursor, and the cuts. */
  function Covered(bytes: seq<byte>, start: nat, cuts: seq<Cut>, end: nat): nat
    requires start <= end <= |bytes|
  {
    Newlines(bytes[start..end]) + |cuts|
  }

  /** No line that was complete in `was` is left after `at`. */
  ghost predicate CaughtUp(was: seq<byte>, at: nat) {
    at <= |was| ==> NoNewline(was[at..])
  }

  /** The budget of a pass is enough for every line, or enough to notice that a line is too long. */
  ghost predicate Suffices(bytes: seq<byte>, budget: nat) {
    budget > MAX_LINE || forall i, j | 0 <= i <= j <= |bytes| && NoNewline(bytes[i..j]) :: j - i < budget
  }

  /** A complete line after `at` in a log that has grown: the pass that starts there has moved on. */
  lemma MovesOn(was: seq<byte>, grown: seq<byte>, bytes: seq<byte>, at: nat, budget: nat, moved: int)
    requires was <= grown <= bytes && at <= |was| && !NoNewline(was[at..]) && Suffices(was, budget)
    requires moved >= 0 && MakesProgress(bytes[at..], |grown| - at, budget, moved)
    ensures moved > 0
  {
    var k :| 0 <= k < |was[at..]| && was[at..][k] == NEWLINE;
    var rest := bytes[at..];
    assert rest[k] == NEWLINE;
    FirstNewlineAtMost(rest, k);
    var n := FirstNewline(rest);
    assert rest[..n] == was[at..at + n];
  }

  lemma StaysCaughtUp(was: seq<byte>, at: nat, next: nat)
    requires CaughtUp(was, at) && at <= next
    ensures CaughtUp(was, next)
  {
    if next <= |was| {
      assert was[at..] == was[at..next] + was[next..];
    }
  }

  /** One more pass: one more line, or nothing that was there at first is left. */
  lemma CoverageStep(first: seq<byte>, i: nat, covered: nat, here: nat, now: nat, next: nat)
    requires i <= covered || CaughtUp(first, here)
    requires covered <= now && here <= next && (!CaughtUp(first, here) ==> covered < now)
    ensures i + 1 <= now || CaughtUp(first, next)
  {
    hide CaughtUp;
    if CaughtUp(first, here) { StaysCaughtUp(first, here, next); }
  }

  /** One more pass that has moved on has covered one more line, or cut one more stretch. */
  lemma CoversMore(was: seq<byte>, bytes: seq<byte>, start: nat, cuts: seq<Cut>, here: nat, complete: nat, more: seq<Cut>, end: nat)
    requires was <= bytes && start <= here <= |was| && here <= complete <= end <= |bytes| && Whole(bytes[here..complete])
    requires if more == cuts then end == complete else |more| == |cuts| + 1
    ensures Covered(bytes, start, more, end) >= Covered(was, start, cuts, here)
    ensures end > here ==> Covered(bytes, start, more, end) > Covered(was, start, cuts, here)
  {
    hide Whole;
    assert bytes[start..end] == was[start..here] + bytes[here..end];
    NewlinesConcat(was[start..here], bytes[here..end]);
    assert bytes[here..end] == bytes[here..complete] + bytes[complete..end];
    NewlinesConcat(bytes[here..complete], bytes[complete..end]);
    if complete > here { WholeCounts(bytes[here..complete]); }
  }

  /** What a log yields is the beginning of what it yields after it has grown. */
  lemma {:induction false} ObservedGrows(a: seq<byte>, b: seq<byte>, parse: Parser)
    ensures Observed(a, parse) <= Observed(a + b, parse)
    decreases |a|
  {
    hide NoNewline, ParsedLine;
    var n := FirstNewline(a);
    if n < |a| {
      assert (a + b)[..n] == a[..n] && (a + b)[n + 1..] == a[n + 1..] + b;
      FirstNewlineOf(a + b, n);
      ObservedGrows(a[n + 1..], b, parse);
    }
  }

  /**
   * After more passes than there are lines in what was read, everything that was complete when the run began
   * has been emitted, and it alone if the log has not grown; provided that all lines fit.
   */
  lemma RunCatchesUp(was: seq<byte>, bytes: seq<byte>, start: nat, cuts: seq<Cut>, end: nat, passes: nat, parse: Parser)
    requires was <= bytes && start <= |was| && CutsOk(bytes, start, cuts, end) && start <= end <= |bytes|
    requires passes <= Covered(bytes, start, cuts, end) || CaughtUp(was, end)
    requires LinesFit(bytes, start, end) && passes > Newlines(bytes[start..end])
    ensures cuts == [] && Observed(was[start..], parse) <= Emission(bytes, start, cuts, end, parse)
    ensures end <= |was| ==> Emission(bytes, start, cuts, end, parse) == Observed(was[start..], parse) && NoNewline(was[end..])
  {
    hide Observed, NoNewline, LinesFit;
    LinesFitIsSplitting(bytes, start, cuts, end, parse);
    if end <= |was| {
      assert was[start..] == bytes[start..end] + was[end..];
      ObservedConcat(bytes[start..end], was[end..], parse);
      NothingIn(was[end..], parse);
    } else {
      assert bytes[start..end] == was[start..] + bytes[|was|..end];
      ObservedGrows(was[start..], bytes[|was|..end], parse);
    }
  }

  // ---- the reader's state within a pass ----

  datatype Scan = Scan(complete: nat, line: seq<byte>, lineBytes: nat, overlong: bool)

  /** `seen` bytes from `start` have been scanned and have yielded `got`. */
  ghost predicate ScanOk(bytes: seq<byte>, start: nat, seen: nat, s: Scan, got: seq<Observation>, parse: Parser) {
    && start + seen <= |bytes| && s.complete <= seen && s.lineBytes == seen - s.complete
    && Whole(bytes[start..start + s.complete])
    && got == Observed(bytes[start..start + s.complete], parse)
    && NoNewline(bytes[start + s.complete..start + seen])
    && (s.overlong <==> s.lineBytes > MAX_LINE)
    && s.line == if s.overlong then [] else bytes[start + s.complete..start + seen]
  }

  lemma ScanGrows(bytes: seq<byte>, more: seq<byte>, start: nat, seen: nat, s: Scan, got: seq<Observation>, parse: Parser)
    requires bytes <= more && ScanOk(bytes, start, seen, s, got, parse)
    ensures ScanOk(more, start, seen, s, got, parse)
  {
    hide Observed, NoNewline, Whole;
    assert more[start..start + s.complete] == bytes[start..start + s.complete];
    assert more[start + s.complete..start + seen] == bytes[start + s.complete..start + seen];
  }

  /** A line and its newline at the end of a stretch. */
  lemma SliceLine(bytes: seq<byte>, a: nat, b: nat, n: nat)
    requires a <= b <= n < |bytes| && bytes[n] == NEWLINE
    ensures bytes[a..n + 1] == bytes[a..b] + (bytes[b..n] + [NEWLINE]) && Whole(bytes[a..n + 1])
  {
    assert bytes[a..n + 1][n - a] == bytes[n];
  }

  /** A stretch of whole lines has a newline in it. */
  lemma LastIsNewline(bytes: seq<byte>, start: nat, n: nat)
    requires n > 0 && start + n <= |bytes| && Whole(bytes[start..start + n])
    ensures !NoNewline(bytes[start..])
  {
    assert bytes[start..start + n][n - 1] == bytes[start..][n - 1];
  }

  lemma ScanNewline(bytes: seq<byte>, start: nat, at: nat, s: Scan, got: seq<Observation>, parse: Parser)
    requires ScanOk(bytes, start, at, s, got, parse) && start + at < |bytes| && bytes[start + at] == NEWLINE
    ensures ScanOk(bytes, start, at + 1, Scan(at + 1, [], 0, false),
                   got + if s.overlong then [] else ParsedLine(s.line, parse), parse)
  {
    hide Observed, FirstNewline, NoNewline, Whole;
    EmptyHasNone();
    var before, open := bytes[start..start + s.complete], bytes[start + s.complete..start + at];
    SliceLine(bytes, start, start + s.complete, start + at);
    ObservedConcat(before, open + [NEWLINE], parse);
    ObservedOneLine(open, parse);
    assert bytes[start + (at + 1)..start + (at + 1)] == [];
  }

  lemma EmptyHasNone()
    ensures NoNewline([])
  {
  }

  /** The state after a byte that does not end a line. */
  function Advanced(s: Scan, b: byte): Scan {
    if s.overlong then s.(lineBytes := s.lineBytes + 1)
    else if |s.line| < MAX_LINE then s.(lineBytes := s.lineBytes + 1, line := s.line + [b])
    else s.(lineBytes := s.lineBytes + 1, line := [], overlong := true)
  }

  lemma ScanOther(bytes: seq<byte>, start: nat, at: nat, s: Scan, got: seq<Observation>, parse: Parser)
    requires ScanOk(bytes, start, at, s, got, parse) && start + at < |bytes| && bytes[start + at] != NEWLINE
    ensures ScanOk(bytes, start, at + 1, Advanced(s, bytes[start + at]), got, parse)
  {
    hide Observed, Whole;
    var open, longer := bytes[start + s.complete..start + at], bytes[start + s.complete..start + (at + 1)];
    assert longer == open + [bytes[start + at]];
  }

  /** One byte of a chunk, and what it emits. */
  method ScanByte(b: byte, at: nat, s: Scan, parse: Parser, ghost bytes: seq<byte>, ghost start: nat,
                  ghost got: seq<Observation>)
    returns (next: Scan, emitted: seq<Observation>)
    requires ScanOk(bytes, start, at, s, got, parse) && start + at < |bytes| && bytes[start + at] == b
    ensures ScanOk(bytes, start, at + 1, next, got + emitted, parse)
    ensures b == NEWLINE ==> next.complete == at + 1 && !next.overlong
    ensures b != NEWLINE ==> next.complete == s.complete && (s.overlong ==> next.overlong)
  {
    emitted := [];
    if b == NEWLINE {
      ScanNewline(bytes, start, at, s, got, parse);
      ShortLine(bytes, start, at, s, got, parse);
      if !s.overlong {
        var parsed := parse(s.line);
        if parsed.Some? {
          emitted := [parsed.value];
        }
      }
      next := Scan(at + 1, [], 0, false);
      return;
    }
    ScanOther(bytes, start, at, s, got, parse);
    assert got + [] == got;
    next := Advanced(s, b);
  }

  lemma ShortLine(bytes: seq<byte>, start: nat, at: nat, s: Scan, got: seq<Observation>, parse: Parser)
    requires ScanOk(bytes, start, at, s, got, parse)
    ensures |s.line| <= MAX_LINE
  {
  }

  // ---- the file ----

  /** The log under its path. Only its writer changes it, and only by appending. */
  class LogFile {
    var bytes: seq<byte>
    const identity: string
    /** How many reads have failed. */
    ghost var errors: nat

    constructor (bytes: seq<byte>, identity: string)
      ensures this.bytes == bytes && this.identity == identity
    {
      this.bytes, errors := bytes, 0;
      this.identity := identity;
    }

    method MaybeAppend()
      modifies this`bytes
      ensures old(bytes) <= bytes
    {
      var more: seq<byte> := *;
      bytes := bytes + more;
    }

    /** Any non-empty prefix of what was asked for, the end of the file, or an error. */
    method Read(pos: nat, want: nat) returns (chunk: seq<byte>, ok: bool)
      requires pos <= |bytes| && want > 0
      modifies this
      ensures old(bytes) <= bytes && pos + |chunk| <= |bytes| && |chunk| <= want
      ensures chunk == bytes[pos..pos + |chunk|]
      ensures ok && chunk == [] ==> pos == |bytes|
      ensures errors == old(errors) + if ok then 0 else 1
    {
      MaybeAppend();
      ok := *;
      errors := errors + if ok then 0 else 1;
      var most := if want < |bytes| - pos then want else |bytes| - pos;
      var n: int := *;
      if n < 1 || n > most {
        n := most;
      }
      chunk := if ok then bytes[pos..pos + n] else [];
    }
  }

  // ---- one pass ----

  /** When the pass began there were more than 128 KiB after `start`, and there is no newline there. */
  ghost predicate LongTail(bytes: seq<byte>, start: nat, present: nat) {
    start <= |bytes| && NoNewline(bytes[start..]) && start + MAX_LINE < present
  }

  /** The reader is after a newline or at the start of the log. */
  predicate Boundary(bytes: seq<byte>, offset: nat) {
    offset <= |bytes| && (offset == 0 || bytes[offset - 1] == NEWLINE)
  }

  class Watcher {
    const parse: Parser
    var emitted: seq<Observation>
    var discardedUntil: nat
    var discardedIdentity: string

    constructor (parse: Parser)
      ensures this.parse == parse && emitted == [] && discardedUntil == 0 && discardedIdentity == ""
    {
      this.parse := parse;
      emitted := [];
      discardedUntil, discardedIdentity := 0, "";
    }

    /** The inner loop over one chunk; it stops early at the end of a line drained past the budget. */
    method ScanChunk(chunk: seq<byte>, chunkStart: nat, maxBytes: nat, s: Scan, ghost bytes: seq<byte>, ghost start: nat,
                     ghost before: seq<Observation>)
      returns (next: Scan, index: nat)
      requires start + chunkStart + |chunk| <= |bytes| && chunk == bytes[start + chunkStart..start + chunkStart + |chunk|]
      requires before <= emitted && ScanOk(bytes, start, chunkStart, s, emitted[|before|..], parse)
      modifies this`emitted
      ensures index <= |chunk| && before <= emitted
      ensures ScanOk(bytes, start, chunkStart + index, next, emitted[|before|..], parse)
      ensures index < |chunk| ==> chunkStart + |chunk| > maxBytes && !next.overlong && next.complete == chunkStart + index
      ensures s.overlong && next.overlong && chunkStart + |chunk| > maxBytes ==> next.complete == s.complete
    {
      hide ScanOk;
      next, index := s, 0;
      while index < |chunk|
        invariant index <= |chunk| && before <= emitted
        invariant s.overlong && chunkStart + |chunk| > maxBytes ==> next.overlong && next.complete == s.complete
        invariant ScanOk(bytes, start, chunkStart + index, next, emitted[|before|..], parse)
      {
        var b := chunk[index];
        assert b == bytes[start + (chunkStart + index)];
        var wasOverlong := next.overlong;
        ghost var got := emitted[|before|..];
        var more;
        next, more := ScanByte(b, chunkStart + index, next, parse, bytes, start, got);
        assert (emitted + more)[|before|..] == got + more;
        emitted := emitted + more;
        index := index + 1;
        if b == NEWLINE && wasOverlong && chunkStart + |chunk| > maxBytes {
          break;
        }
      }
    }

    /** The reading loop of a pass from `start`; `end` is the new position relative to it. */
    method ReadLines(file: LogFile, start: nat, maxBytes: nat) returns (ok: bool, end: nat, discarded: bool, ghost complete: nat)
      requires start <= |file.bytes| && maxBytes > 0
      modifies this`emitted, file
      ensures old(file.bytes) <= file.bytes && old(emitted) <= emitted
      ensures file.errors >= old(file.errors) && (ok <==> file.errors == old(file.errors))
      ensures complete <= end && start + end <= |file.bytes| && (!discarded ==> end == complete)
      ensures Whole(file.bytes[start..start + complete])
      ensures emitted[|old(emitted)|..] == Observed(file.bytes[start..start + complete], parse)
      ensures discarded ==> end - complete > MAX_LINE && NoNewline(file.bytes[start + complete..start + end])
      ensures ok ==> MakesProgress(file.bytes[start..], |old(file.bytes)| - start, maxBytes, end)
      ensures ok && maxBytes > MAX_LINE && LongTail(file.bytes, start, |old(file.bytes)|) ==>
                discarded && (|file.bytes| - start < MAX_DRAIN ==> start + end == |file.bytes|)
    {
      hide Observed, Whole, NoNewline, MakesProgress, LongTail, ParsedLine, ScanOk;
      ghost var before := emitted;
      var consumed: nat := 0;
      ghost var seen: nat := 0;
      var scan := Scan(0, [], 0, false);
      ok, discarded := true, false;
      StartsScan(file.bytes, start);
      assert emitted[|before|..] == [];
      while scan.overlong || consumed < maxBytes
        invariant old(file.bytes) <= file.bytes && before <= emitted && start + consumed <= |file.bytes|
        invariant ok && file.errors == old(file.errors)
        invariant ScanOk(file.bytes, start, seen, scan, emitted[|before|..], parse)
        invariant seen == consumed || (seen < consumed && consumed > maxBytes && !scan.overlong && scan.complete == seen)
        invariant scan.overlong ==> scan.complete <= maxBytes && scan.lineBytes < MAX_DRAIN
        invariant consumed <= maxBytes || maxBytes > MAX_LINE
        invariant consumed <= maxBytes || scan.overlong || scan.complete > 0
        decreases maxBytes + MAX_DRAIN + BUFFER - consumed
      {
        var want := BUFFER;
        if !scan.overlong && maxBytes - consumed < want {
          want := maxBytes - consumed;
        }
        ghost var was := file.bytes;
        var chunk;
        chunk, ok := file.Read(start + consumed, want);
        ScanGrows(was, file.bytes, start, seen, scan, emitted[|before|..], parse);
        ScanCounts(file.bytes, start, seen, scan, emitted[|before|..]);
        if !ok {
          break;
        }
        if chunk == [] {
          discarded := scan.overlong;
          break;
        }
        ghost var last := scan;
        var index;
        scan, index := ScanChunk(chunk, consumed, maxBytes, scan, file.bytes, start, before);
        seen := consumed + index;
        consumed := consumed + |chunk|;
        ScanCounts(file.bytes, start, seen, scan, emitted[|before|..]);
        if scan.overlong && scan.lineBytes >= MAX_DRAIN {
          discarded := true;
          break;
        }
      }
      complete := scan.complete;
      end := if discarded then consumed else scan.complete;
      ScanCounts(file.bytes, start, seen, scan, emitted[|before|..]);
      if ok {
        ProgressMade(old(file.bytes), file.bytes, start, seen, scan, emitted[|before|..], maxBytes, discarded, end);
        if LongTail(file.bytes, start, |old(file.bytes)|) {
          Unending(file.bytes, start, |old(file.bytes)|, seen, scan, emitted[|before|..]);
        }
      }
    }

    lemma ScanCounts(bytes: seq<byte>, start: nat, seen: nat, s: Scan, got: seq<Observation>)
      requires ScanOk(bytes, start, seen, s, got, parse)
      ensures s.complete <= seen && s.lineBytes == seen - s.complete && (s.overlong <==> s.lineBytes > MAX_LINE)
      ensures start + seen <= |bytes| && Whole(bytes[start..start + s.complete])
      ensures got == Observed(bytes[start..start + s.complete], parse)
      ensures NoNewline(bytes[start + s.complete..start + seen])
    {
      hide Observed;
    }

    /** A line without an end so far has not been completed, and is overlong once it is longer than 128 KiB. */
    lemma Unending(bytes: seq<byte>, start: nat, present: nat, seen: nat, s: Scan, got: seq<Observation>)
      requires ScanOk(bytes, start, seen, s, got, parse) && LongTail(bytes, start, present)
      ensures start + MAX_LINE < present && s.complete == 0 && s.lineBytes == seen && (s.overlong <==> seen > MAX_LINE)
    {
      hide Observed;
      if s.complete > 0 { LastIsNewline(bytes, start, s.complete); }
    }

    /** Where a pass with this cursor starts. */
    function StartOf(bytes: seq<byte>, offset: nat, sameFile: bool, discardedHere: bool): nat
    {
      if !sameFile || |bytes| < offset then 0
      else if offset > 0 && !discardedHere && bytes[offset - 1] != NEWLINE then 0
      else offset
    }

    /** The record of a discarded tail, if it belongs to this file. */
    predicate RemembersTail(file: LogFile, offset: nat)
      reads this
    {
      discardedIdentity == file.identity && offset == discardedUntil
    }

    /**
     * `readFromWithIdentity`: one pass. What it emits is what the plain splitter finds between the start and
     * the end of the last line that it read; unless a tail was discarded, that is where the cursor goes.
     */
    method ReadPass(file: LogFile, offset: nat, maxBytes: nat, previousIdentity: string)
      returns (ok: bool, next: nat, reset: bool, discarded: bool, ghost start: nat, ghost complete: nat)
      modifies this`emitted, this`discardedUntil, this`discardedIdentity, file
      ensures file.errors >= old(file.errors) && (ok <==> file.errors == old(file.errors))
      ensures old(file.bytes) <= file.bytes && old(emitted) <= emitted
      ensures start == StartOf(old(file.bytes), offset, SameFile(file, previousIdentity),
                               !Reset(old(file.bytes), file, offset, previousIdentity) && old(RemembersTail(file, offset)))
      ensures reset == Reset(old(file.bytes), file, offset, previousIdentity)
      ensures start <= complete <= |file.bytes| && Whole(file.bytes[start..complete])
      ensures emitted[|old(emitted)|..] == Observed(file.bytes[start..complete], parse)
      ensures ok && !discarded ==> next == complete
      ensures ok && discarded ==> complete + MAX_LINE < next <= |file.bytes| && NoNewline(file.bytes[complete..next])
      ensures ok ==> MakesProgress(file.bytes[start..], |old(file.bytes)| - start, Budget(maxBytes), next - start)
      ensures ok && discarded ==> RemembersTail(file, next)
      ensures ok && Budget(maxBytes) > MAX_LINE && LongTail(file.bytes, start, |old(file.bytes)|) ==>
                discarded && (|file.bytes| - start < MAX_DRAIN ==> next == |file.bytes|)
      ensures ok && !discarded && next == start && !reset && old(RemembersTail(file, next)) ==> RemembersTail(file, next)
    {
      hide Observed, MakesProgress, NoNewline;
      reset := Reset(file.bytes, file, offset, previousIdentity);
      var from := offset;
      if reset {
        from := 0;
        discardedUntil, discardedIdentity := 0, "";
      }
      var tail := from > 0 && discardedIdentity == file.identity && from == discardedUntil;
      if from > 0 && !tail {
        if file.bytes[from - 1] != NEWLINE {
          from := 0;
        }
      }
      start := from;
      var end;
      ok, end, discarded, complete := ReadLines(file, from, Budget(maxBytes));
      complete := from + complete;
      next := from + end;
      if !ok {
        return;
      }
      if discarded {
        discardedUntil, discardedIdentity := next, file.identity;
      }
      if discardedIdentity == file.identity && next > discardedUntil {
        discardedUntil, discardedIdentity := 0, "";
      }
    }

    function SameFile(file: LogFile, previousIdentity: string): bool {
      file.identity == "" || previousIdentity == "" || file.identity == previousIdentity
    }

    function Reset(bytes: seq<byte>, file: LogFile, offset: nat, previousIdentity: string): bool {
      !SameFile(file, previousIdentity) || |bytes| < offset
    }

    /** The next pass starts where the cursor is. */
    predicate AtCursor(file: LogFile, offset: nat)
      reads this, file
    {
      offset <= |file.bytes| && (RemembersTail(file, offset) || Boundary(file.bytes, offset))
    }

    /** All that was emitted since `before` comes from the stretches between the cuts. */
    ghost predicate Told(bytes: seq<byte>, before: seq<Observation>, start: nat, cuts: seq<Cut>, end: nat)
      reads this
    {
      && start <= end <= |bytes| && CutsOk(bytes, start, cuts, end)
      && before <= emitted && emitted[|before|..] == Emission(bytes, start, cuts, end, parse)
    }

    /** One turn of the loop of `Run`, in a log that may have grown. */
    method Poll(file: LogFile, offset: nat, budget: nat, identity: string,
                ghost before: seq<Observation>, ghost start: nat, ghost cuts: seq<Cut>, ghost first: seq<byte>)
      returns (ok: bool, next: nat, ghost from: nat, ghost cuts': seq<Cut>, ghost end: nat)
      requires first <= file.bytes
      requires identity == "" || identity == file.identity
      requires Told(file.bytes, before, start, cuts, offset)
      requires AtCursor(file, offset) || (cuts == [] && start == offset && discardedUntil == 0)
      modifies this`emitted, this`discardedUntil, this`discardedIdentity, file
      ensures file.errors >= old(file.errors) && (ok <==> file.errors == old(file.errors))
      ensures old(file.bytes) <= file.bytes && old(emitted) <= emitted
      ensures from == if old(AtCursor(file, offset)) then start else 0
      ensures Told(file.bytes, before, from, cuts', end) && from <= end <= |file.bytes|
      ensures ok ==> next == end && AtCursor(file, next)
      ensures ok ==>
                var here := if old(AtCursor(file, offset)) then offset else 0;
                && here <= next
                && Covered(file.bytes, from, cuts', end) >= Covered(old(file.bytes), start, cuts, offset)
                && (!CaughtUp(first, here) && Suffices(first, Budget(budget)) ==>
                      Covered(file.bytes, from, cuts', end) > Covered(old(file.bytes), start, cuts, offset))
      ensures ok && cuts' == [] ==> cuts == []
      ensures ok && cuts' == [] && old(AtCursor(file, offset) ==> Boundary(file.bytes, offset)) ==> Boundary(file.bytes, next)
    {
      hide Observed, Whole, MakesProgress, NoNewline, Emission, CutsOk, Covered, Suffices;
      ghost var was := file.bytes;
      ghost var got := emitted;
      file.MaybeAppend();
      ghost var grown := file.bytes;
      var reset, discarded;
      ghost var here, complete;
      ok, next, reset, discarded, here, complete := ReadPass(file, offset, budget, identity);
      from, cuts' := start, cuts;
      if here != offset {
        from := 0;
        NoCuts(was, start);
        NoCuts(was, from);
      }
      CutsExtend(was, file.bytes, from, cuts, here, complete, parse);
      end := complete;
      assert emitted[|before|..] == got[|before|..] + emitted[|got|..];
      if !ok {
        return;
      }
      EndsOnBoundary(file.bytes, here, complete);
      if discarded {
        CutsSnoc(file.bytes, from, cuts, Cut(complete, next), parse);
        cuts', end := cuts + [Cut(complete, next)], next;
      }
      if here != offset { NothingCovered(was, start); }
      CoversMore(was, file.bytes, from, cuts, here, complete, cuts', end);
      if !CaughtUp(first, here) && Suffices(first, Budget(budget)) {
        MovesOn(first, grown, file.bytes, here, Budget(budget), next - here);
      }
    }

    /**
     * `Run`: pass after pass while the log only grows. `cuts` are the stretches that the passes discarded:
     * what is emitted is what the plain splitter finds between them, in order and once each. Without a cut
     * that is what it finds between the start and the cursor, which then is after a newline or at 0.
     */
    method Run(file: LogFile, startAtEnd: bool, maxBytes: nat, passes: nat)
      returns (ok: bool, offset: nat, ghost start: nat, ghost cuts: seq<Cut>, ghost end: nat)
      requires discardedUntil == 0
      modifies this`emitted, this`discardedUntil, this`discardedIdentity, file
      ensures ok <==> file.errors == old(file.errors)
      ensures old(file.bytes) <= file.bytes && Told(file.bytes, old(emitted), start, cuts, end)
      ensures ok ==> offset == end && (passes > 0 ==> AtCursor(file, offset))
      ensures ok && passes > 0 && cuts == [] ==> Boundary(file.bytes, offset)
      ensures start == if startAtEnd && (passes == 0 || Boundary(old(file.bytes), |old(file.bytes)|))
                       then |old(file.bytes)| else 0
      ensures ok && passes > 0 && Suffices(old(file.bytes), RunBudget(maxBytes)) ==>
                passes <= Covered(file.bytes, start, cuts, end) || CaughtUp(old(file.bytes), end)
    {
      hide Told, AtCursor, Covered, CaughtUp, Suffices;
      var budget := RunBudget(maxBytes);
      var identity := "";
      offset := 0;
      if startAtEnd {
        offset := |file.bytes|;
        identity := file.identity;
      }
      ghost var before := emitted;
      start, cuts, end, ok := offset, [], offset, true;
      StartsTold(file, start);
      var i := 0;
      while i < passes
        invariant ok && file.errors == old(file.errors) && i <= passes && old(file.bytes) <= file.bytes && offset == end
        invariant identity == "" || identity == file.identity
        invariant Told(file.bytes, before, start, cuts, end)
        invariant i == 0 ==> cuts == [] && start == offset && discardedUntil == 0 && file.bytes == old(file.bytes)
        invariant i == 0 ==> start == if startAtEnd then |old(file.bytes)| else 0
        invariant i == 0 ==> (AtCursor(file, offset) <==> Boundary(file.bytes, offset))
        invariant start <= end <= |file.bytes|
        invariant Suffices(old(file.bytes), budget) ==>
                    i <= Covered(file.bytes, start, cuts, end) || (i > 0 && CaughtUp(old(file.bytes), end))
        invariant i > 0 ==> AtCursor(file, offset)
        invariant i > 0 && cuts == [] ==> Boundary(file.bytes, offset)
        invariant i > 0 ==> start == if startAtEnd && Boundary(old(file.bytes), |old(file.bytes)|) then |old(file.bytes)| else 0
      {
        ghost var was, here := file.bytes, if AtCursor(file, offset) then offset else 0;
        ghost var covered := Covered(was, start, cuts, end);
        ok, offset, start, cuts, end := Poll(file, offset, budget, identity, before, start, cuts, old(file.bytes));
        if !ok {
          return;
        }
        if Suffices(old(file.bytes), budget) {
          CoverageStep(old(file.bytes), i, covered, here, Covered(file.bytes, start, cuts, end), offset);
        }
        identity := file.identity;
        i := i + 1;
      }
    }

    lemma NothingCovered(bytes: seq<byte>, start: nat)
      requires start <= |bytes|
      ensures Covered(bytes, start, [], start) == 0 && Covered(bytes, 0, [], 0) == 0
    {
      assert bytes[start..start] == [] && bytes[0..0] == [];
    }

    lemma StartsTold(file: LogFile, start: nat)
      requires start <= |file.bytes|
      ensures Told(file.bytes, emitted, start, [], start)
      ensures discardedUntil == 0 ==> (AtCursor(file, start) <==> Boundary(file.bytes, start))
    {
      hide Emission, CutsOk;
      NoCuts(file.bytes, start);
      assert emitted[|emitted|..] == [];
    }

    lemma NoCuts(bytes: seq<byte>, start: nat)
      requires start <= |bytes|
      ensures CutsOk(bytes, start, [], start) && Emission(bytes, start, [], start, parse) == []
    {
      assert bytes[start..start] == [];
      NothingIn([], parse);
    }

    lemma EndsOnBoundary(bytes: seq<byte>, from: nat, next: nat)
      requires from <= next <= |bytes| && Whole(bytes[from..next])
      ensures Boundary(bytes, from) || from < next ==> Boundary(bytes, next)
    {
    }

    lemma StartsScan(bytes: seq<byte>, start: nat)
      requires start <= |bytes|
      ensures ScanOk(bytes, start, 0, Scan(0, [], 0, false), [], parse)
    {
      assert bytes[start..start] == [];
    }

    /** Why a pass that ended without an error has, or has not, moved on. */
    lemma ProgressMade(was: seq<byte>, bytes: seq<byte>, start: nat, seen: nat, s: Scan, got: seq<Observation>, maxBytes: nat,
                       discarded: bool, end: nat)
      requires was <= bytes && start <= |was| && ScanOk(bytes, start, seen, s, got, parse)
      requires end == (if discarded then seen else s.complete)
      requires seen >= maxBytes || start + seen == |bytes| || discarded || s.complete > 0
      requires discarded <==> s.overlong
      requires maxBytes <= MAX_LINE ==> seen <= maxBytes && !s.overlong
      ensures MakesProgress(bytes[start..], |was| - start, maxBytes, end)
    {
      hide Observed, FirstNewline;
      var t := bytes[start..];
      var first := FirstNewline(t);
      if first < |was| - start {
        var done := bytes[start..start + s.complete];
        if s.complete > 0 {
          assert done[s.complete - 1] == t[s.complete - 1];
          FirstNewlineAtMost(t, s.complete - 1);
        } else {
          assert t[..seen] == bytes[start..start + seen];
          FirstNewlineAtLeast(t, seen);
        }
      }
    }
  }

  /**
   * Exactly when the pass moves on, for a log whose first line was complete when the pass began: when the
   * line fits the budget, or when the budget is large enough to notice that the line is too long.
   */
  ghost predicate MakesProgress(s: seq<byte>, present: int, maxBytes: nat, end: nat) {
    FirstNewline(s) < present ==> (end > 0 <==> FirstNewline(s) < maxBytes || maxBytes > MAX_LINE)
  }
}
