/** Splitting the reported order numbers into chat messages
    (src/index.js:115-120 and src/index.js:173-178): consecutive chunks of at
    most ten numbers, each sent as
    `<heading> (<first>-<last> of <total>):\n<numbers joined by ", ">`. */
module Chunking {

  import opened Seqs

  const ChunkSize: nat := 10

  /** The consecutive chunks `ids[i..i + 10]` for i = 0, 10, 20, ...: there
      are ceil(N/10) of them, each non-empty with at most ten elements, all
      but the last with exactly ten, and together they are `ids` again. */
  function Chunks<T>(ids: seq<T>): (cs: seq<seq<T>>)
    ensures |cs| == (|ids| + ChunkSize - 1) / ChunkSize
    ensures forall k :: 0 <= k < |cs| ==> 0 < |cs[k]| <= ChunkSize
    ensures forall k :: 0 <= k < |cs| - 1 ==> |cs[k]| == ChunkSize
    ensures Flatten(cs) == ids
    decreases |ids|
  {
    if |ids| == 0 then []
    else if |ids| <= ChunkSize then
      assert Flatten([ids]) == ids + Flatten([]);
      [ids]
    else
      var rest := Chunks(ids[ChunkSize..]);
      assert ([ids[..ChunkSize]] + rest)[1..] == rest;
      assert ids[..ChunkSize] + ids[ChunkSize..] == ids;
      [ids[..ChunkSize]] + rest
  }

  function Min(a: int, b: int): int
  {
    if a <= b then a else b
  }

  /** The k-th chunk is the slice starting at `10 * k`, cut at the end of
      the list. */
  lemma {:induction false} ChunkAt<T>(ids: seq<T>, k: nat)
    requires k < |Chunks(ids)|
    ensures ChunkSize * k <= |ids|
    ensures Chunks(ids)[k] == ids[ChunkSize * k .. Min(ChunkSize * k + ChunkSize, |ids|)]
    decreases k
  {
    if k > 0 {
      assert |ids| > ChunkSize;
      var rest := ids[ChunkSize..];
      assert Chunks(ids)[k] == Chunks(rest)[k - 1];
      ChunkAt(rest, k - 1);
      ShiftedSlice(ids, k);
    }
  }

  lemma ShiftedSlice<T>(ids: seq<T>, k: nat)
    requires 0 < k && ChunkSize < |ids|
    requires ChunkSize * (k - 1) <= |ids| - ChunkSize
    ensures var rest := ids[ChunkSize..];
      var lo := ChunkSize * (k - 1);
      rest[lo .. Min(lo + ChunkSize, |rest|)] == ids[ChunkSize * k .. Min(ChunkSize * k + ChunkSize, |ids|)]
  {
  }

  // ----- Rendering numbers and lists as JavaScript's template strings do -----

  function DigitChar(d: nat): char
    requires d < 10
  {
    "0123456789"[d]
  }

  predicate IsDigit(c: char)
  {
    '0' <= c <= '9'
  }

  function DigitValue(c: char): nat
    requires IsDigit(c)
  {
    (c - '0') as nat
  }

  predicate AllDigits(s: string)
  {
    forall i :: 0 <= i < |s| ==> IsDigit(s[i])
  }

  /** The decimal rendering of a natural number, as `${n}` produces it. */
  function Decimal(n: nat): (s: string)
    ensures |s| >= 1
  {
    if n < 10 then [DigitChar(n)] else Decimal(n / 10) + [DigitChar(n % 10)]
  }

  /** Reading a string of decimal digits back as a number. */
  function ParseDecimal(s: string): (n: nat)
    requires AllDigits(s)
  {
    if s == [] then 0 else 10 * ParseDecimal(s[..|s| - 1]) + DigitValue(s[|s| - 1])
  }

  /** The rendering is read back as the same number, so distinct range
      bounds render differently. */
  lemma {:induction false} DecimalRoundTrip(n: nat)
    ensures var s := Decimal(n);
      && |s| > 0
      && AllDigits(s)
      && (s[0] == '0' ==> n == 0)
      && ParseDecimal(s) == n
  {
    var s := Decimal(n);
    if n >= 10 {
      DecimalRoundTrip(n / 10);
      assert s[..|s| - 1] == Decimal(n / 10);
      assert s[0] == Decimal(n / 10)[0];
    }
  }

  /** `xs.join(sep)`: the elements with `sep` between neighbours. */
  function Join(xs: seq<string>, sep: string): (s: string)
    ensures xs == [] ==> s == []
    ensures xs != [] ==> xs[0] <= s
  {
    if |xs| == 0 then ""
    else if |xs| == 1 then xs[0]
    else xs[0] + sep + Join(xs[1..], sep)
  }

  const Separator: string := ", "

  /** Cutting a text at every ", ": the partner of `Join` with `Separator`. */
  function SplitList(s: string): (parts: seq<string>)
    ensures |parts| > 0
  {
    SplitFrom(s, "")
  }

  /** Splitting `s` with `current` as the text of the part read so far. */
  function SplitFrom(s: string, current: string): (parts: seq<string>)
    ensures |parts| > 0
    decreases |s|
  {
    if s == [] then [current]
    else if |s| >= 2 && s[..2] == Separator then [current] + SplitFrom(s[2..], "")
    else SplitFrom(s[1..], current + [s[0]])
  }

  predicate NoComma(x: string)
  {
    forall i :: 0 <= i < |x| ==> x[i] != ','
  }

  lemma {:induction false} SplitFromSkips(x: string, rest: string, current: string)
    requires NoComma(x)
    ensures SplitFrom(x + rest, current) == SplitFrom(rest, current + x)
    decreases |x|
  {
    if x != [] {
      assert (x + rest)[0] == x[0];
      assert (x + rest)[1..] == x[1..] + rest;
      assert !(|x + rest| >= 2 && (x + rest)[..2] == Separator) by {
        if |x + rest| >= 2 {
          assert (x + rest)[..2][0] == x[0] != ',';
        }
      }
      SplitFromSkips(x[1..], rest, current + [x[0]]);
      assert current + [x[0]] + x[1..] == current + x;
    } else {
      assert x + rest == rest;
      assert current + x == current;
    }
  }

  /** Order numbers contain no comma, so a message body can be cut back
      into the chunk it lists. */
  lemma {:induction false} SplitJoin(xs: seq<string>)
    requires |xs| > 0
    requires forall i :: 0 <= i < |xs| ==> NoComma(xs[i])
    ensures SplitList(Join(xs, Separator)) == xs
  {
    if |xs| == 1 {
      SplitFromSkips(xs[0], "", "");
      assert xs[0] + "" == xs[0];
      assert "" + xs[0] == xs[0];
    } else {
      var tail := Join(xs[1..], Separator);
      assert Join(xs, Separator) == xs[0] + (Separator + tail);
      SplitFromSkips(xs[0], Separator + tail, "");
      assert "" + xs[0] == xs[0];
      assert (Separator + tail)[..2] == Separator;
      assert (Separator + tail)[2..] == tail;
      SplitJoin(xs[1..]);
    }
  }

  // ----- Messages -----

  /** One chat message: the 1-based inclusive range of the numbers it lists,
      the total count, the profile's heading and the chunk itself. */
  datatype Message = Message(heading: string, first: nat, last: nat, total: nat, orderNumbers: seq<string>)

  /** The text posted for a message. */
  function Text(m: Message): (t: string)
    ensures m.heading + " (" <= t
    ensures var body := Join(m.orderNumbers, Separator);
      |body| <= |t| && t[|t| - |body|..] == body
  {
    var header := m.heading + " (" + Decimal(m.first) + "-" + Decimal(m.last) + " of " + Decimal(m.total) + "):\n";
    assert m.heading + " (" <= header;
    header + Join(m.orderNumbers, Separator)
  }

  /** The k-th message carries the k-th chunk, the range `10k+1` to
      `10k + |chunk|`, and the total N. */
  function Messages(ids: seq<string>, heading: string): (ms: seq<Message>)
    ensures forall k :: 0 <= k < |ms| ==> ms[k].heading == heading && ms[k].total == |ids|
  {
    var cs := Chunks(ids);
    seq(|cs|, k requires 0 <= k < |cs| =>
      Message(heading, ChunkSize * k + 1, ChunkSize * k + |cs[k]|, |ids|, cs[k]))
  }

  /** The message at position k, spelled out from the slice at `10 * k`. */
  lemma MessageAt(ids: seq<string>, heading: string, k: nat)
    requires ChunkSize * k < |ids| || k < |Messages(ids, heading)|
    ensures k < |Messages(ids, heading)|
    ensures var chunk := ids[ChunkSize * k .. Min(ChunkSize * k + ChunkSize, |ids|)];
      Messages(ids, heading)[k] == Message(heading, ChunkSize * k + 1, ChunkSize * k + |chunk|, |ids|, chunk)
  {
    ChunkStartInside(|ids|, k);
    ChunkAt(ids, k);
  }

  /** Position `10 * k` is inside the list exactly when there is a k-th chunk. */
  lemma ChunkStartInside(n: nat, k: nat)
    ensures ChunkSize * k < n <==> k < (n + ChunkSize - 1) / ChunkSize
  {
  }

  /** There are ceil(N/10) messages, none exactly when there is no number. */
  lemma MessagesCount(ids: seq<string>, heading: string)
    ensures |Messages(ids, heading)| == (|ids| + ChunkSize - 1) / ChunkSize
    ensures Messages(ids, heading) == [] <==> ids == []
  {
    ChunkStartInside(|ids|, 0);
  }

  /** The k-th message lists exactly the numbers at positions `first`
      through `last` (1-based, inclusive), with `first = 10k + 1`, one to
      ten of them, and names the total N and the profile's heading. */
  lemma MessageRange(ids: seq<string>, heading: string, k: nat)
    requires k < |Messages(ids, heading)|
    ensures var m := Messages(ids, heading)[k];
      && m.heading == heading
      && m.total == |ids|
      && m.first == ChunkSize * k + 1
      && m.first <= m.last <= |ids|
      && m.last - m.first < ChunkSize
      && m.orderNumbers == ids[m.first - 1 .. m.last]
  {
    var lo := ChunkSize * k;
    var hi := Min(lo + ChunkSize, |ids|);
    MessageAt(ids, heading, k);
    assert |ids[lo..hi]| == hi - lo;
  }

  /** The ranges start at 1, follow each other without gap or overlap, and
      the last ends at N. */
  lemma MessagesContiguous(ids: seq<string>, heading: string)
    ensures var ms := Messages(ids, heading);
      && (ms != [] ==> ms[0].first == 1 && ms[|ms| - 1].last == |ids|)
      && (forall k :: 0 <= k < |ms| - 1 ==> ms[k + 1].first == ms[k].last + 1)
  {
    var ms := Messages(ids, heading);
    if ms != [] {
      ChunkAt(ids, |ms| - 1);
    }
  }

  /** Everything the message list promises, together. */
  lemma MessagesCover(ids: seq<string>, heading: string)
    ensures |Messages(ids, heading)| == (|ids| + ChunkSize - 1) / ChunkSize
    ensures Messages(ids, heading) == [] <==> ids == []
    ensures forall k :: 0 <= k < |Messages(ids, heading)| ==>
      var m := Messages(ids, heading)[k];
      && m.heading == heading
      && m.total == |ids|
      && m.first == ChunkSize * k + 1
      && m.first <= m.last <= |ids|
      && m.last - m.first < ChunkSize
      && m.orderNumbers == ids[m.first - 1 .. m.last]
    ensures var ms := Messages(ids, heading);
      && (ms != [] ==> ms[0].first == 1 && ms[|ms| - 1].last == |ids|)
      && (forall k :: 0 <= k < |ms| - 1 ==> ms[k + 1].first == ms[k].last + 1)
  {
    MessagesCount(ids, heading);
    forall k | 0 <= k < |Messages(ids, heading)| {
      MessageRange(ids, heading, k);
    }
    MessagesContiguous(ids, heading);
  }

  /** The example of 25 order numbers: three messages, for 1-10, 11-20 and
      21-25 of 25. */
  lemma TwentyFiveNumbers(ids: seq<string>, heading: string)
    requires |ids| == 25
    ensures var ms := Messages(ids, heading);
      && |ms| == 3
      && (ms[0].first, ms[0].last) == (1, 10)
      && (ms[1].first, ms[1].last) == (11, 20)
      && (ms[2].first, ms[2].last) == (21, 25)
      && forall k :: 0 <= k < 3 ==> ms[k].total == 25
  {
    MessagesCover(ids, heading);
  }

  /** The header rendered for the last of those messages. */
  lemma TwentyFiveHeader(ids: seq<string>, heading: string)
    requires |ids| == 25
    ensures var m := Messages(ids, heading)[2];
      Text(m) == heading + " (21-25 of 25):\n" + Join(ids[20..], Separator)
  {
    TwentyFiveNumbers(ids, heading);
    MessagesCover(ids, heading);
    var m := Messages(ids, heading)[2];
    assert m.orderNumbers == ids[20..];
    assert Decimal(21) == "21";
    assert Decimal(25) == "25";
    assert heading + " (" + "21" + "-" + "25" + " of " + "25" + "):\n" == heading + " (21-25 of 25):\n";
  }
}
