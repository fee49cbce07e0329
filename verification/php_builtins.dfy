/**
 * The PHP library functions the host-IDS adapter relies on, written out:
 * `trim`, `explode("\n", ...)`, `array_slice($xs, -$n)`, `empty` on a
 * string and `array_reverse`.
 */
module PhpBuiltins {

  /** The characters `trim` strips by default: space, tab, LF, CR, NUL, vertical tab. */
  predicate IsTrimmable(c: char) {
    c == ' ' || c == '\t' || c == '\n' || c == '\r' || c as int == 0 || c as int == 11
  }

  function TrimLeft(s: string): string
    decreases |s|
  {
    if s != [] && IsTrimmable(s[0]) then TrimLeft(s[1..]) else s
  }

  function TrimRight(s: string): string
    decreases |s|
  {
    if s != [] && IsTrimmable(s[|s| - 1]) then TrimRight(s[..|s| - 1]) else s
  }

  /** `trim($s)`. */
  function Trim(s: string): string {
    TrimRight(TrimLeft(s))
  }

  /** `TrimLeft` drops a prefix of trimmable characters and stops at the first other one. */
  lemma {:induction false} TrimLeftSpec(s: string)
    ensures var r := TrimLeft(s);
      && |r| <= |s| && r == s[|s| - |r|..]
      && (forall i :: 0 <= i < |s| - |r| ==> IsTrimmable(s[i]))
      && (r != [] ==> !IsTrimmable(r[0]))
    decreases |s|
  {
    if s != [] && IsTrimmable(s[0]) {
      TrimLeftSpec(s[1..]);
    }
  }

  /** `TrimRight` drops a suffix of trimmable characters and stops at the last other one. */
  lemma {:induction false} TrimRightSpec(s: string)
    ensures var r := TrimRight(s);
      && |r| <= |s| && r == s[..|r|]
      && (forall i :: |r| <= i < |s| ==> IsTrimmable(s[i]))
      && (r != [] ==> !IsTrimmable(r[|r| - 1]))
    decreases |s|
  {
    if s != [] && IsTrimmable(s[|s| - 1]) {
      TrimRightSpec(s[..|s| - 1]);
    }
  }

  /**
   * What `trim` keeps is one contiguous piece of its argument, everything
   * cut off on either side is trimmable, and the piece neither starts nor
   * ends with a trimmable character.
   */
  lemma TrimSpec(s: string)
    ensures exists i, j ::
              && 0 <= i <= j <= |s| && Trim(s) == s[i..j]
              && (forall k :: 0 <= k < i ==> IsTrimmable(s[k]))
              && (forall k :: j <= k < |s| ==> IsTrimmable(s[k]))
    ensures Trim(s) != [] ==> !IsTrimmable(Trim(s)[0]) && !IsTrimmable(Trim(s)[|Trim(s)| - 1])
  {
    var l := TrimLeft(s);
    TrimLeftSpec(s);
    TrimRightSpec(l);
    var i := |s| - |l|;
    var j := i + |TrimRight(l)|;
    assert Trim(s) == s[i..j];
    assert forall k :: j <= k < |s| ==> s[k] == l[k - i];
  }

  /** Trimming twice is trimming once. */
  lemma TrimIdempotent(s: string)
    ensures Trim(Trim(s)) == Trim(s)
  {
    var t := Trim(s);
    TrimSpec(s);
    if t != [] {
      assert TrimLeft(t) == t;
      assert TrimRight(t) == t;
    }
  }

  /** `empty($s)` for a string: true for "" and, in PHP, also for "0". */
  predicate IsEmptyString(s: string) {
    s == "" || s == "0"
  }

  /** `explode("\n", $s)`: the pieces between line feeds; never an empty list. */
  function Explode(s: string): (parts: seq<string>)
    ensures |parts| >= 1
    decreases |s|
  {
    if s == [] then [""]
    else
      var rest := Explode(s[1..]);
      if s[0] == '\n' then [""] + rest else [[s[0]] + rest[0]] + rest[1..]
  }

  /** `implode("\n", $parts)`, the inverse of `Explode`. */
  function Join(parts: seq<string>): string
    requires |parts| >= 1
    decreases |parts|
  {
    if |parts| == 1 then parts[0] else parts[0] + "\n" + Join(parts[1..])
  }

  predicate NoLineFeed(s: string) {
    forall i :: 0 <= i < |s| ==> s[i] != '\n'
  }

  /** No piece produced by `Explode` holds a line feed. */
  lemma {:induction false} ExplodePiecesHaveNoLineFeed(s: string)
    ensures forall k :: 0 <= k < |Explode(s)| ==> NoLineFeed(Explode(s)[k])
    decreases |s|
  {
    if s != [] {
      ExplodePiecesHaveNoLineFeed(s[1..]);
    }
  }

  /** Joining the pieces gives the string back. */
  lemma {:induction false} JoinExplode(s: string)
    ensures Join(Explode(s)) == s
    decreases |s|
  {
    if s != [] {
      JoinExplode(s[1..]);
      var rest := Explode(s[1..]);
      if s[0] == '\n' {
        ExplodeFeed(s);
      } else {
        JoinExtendFirst(s[0], rest);
        assert Explode(s) == [[s[0]] + rest[0]] + rest[1..];
      }
    }
  }

  /** A leading line feed starts an empty first piece. */
  lemma ExplodeFeed(s: string)
    requires s != [] && s[0] == '\n'
    ensures Join(Explode(s)) == "\n" + Join(Explode(s[1..]))
  {
    var rest := Explode(s[1..]);
    assert Explode(s) == [""] + rest;
    assert ([""] + rest)[1..] == rest;
  }

  /** Putting a character in front of the first piece puts it in front of the joined text. */
  lemma JoinExtendFirst(c: char, parts: seq<string>)
    requires |parts| >= 1
    ensures Join([[c] + parts[0]] + parts[1..]) == [c] + Join(parts)
  {
    var extended := [[c] + parts[0]] + parts[1..];
    if |parts| > 1 {
      assert extended[1..] == parts[1..];
    }
  }

  /** Splitting a joined list of line-feed-free pieces gives the pieces back. */
  lemma {:induction false} ExplodeJoin(parts: seq<string>)
    requires |parts| >= 1
    requires forall k :: 0 <= k < |parts| ==> NoLineFeed(parts[k])
    ensures Explode(Join(parts)) == parts
    decreases |parts|
  {
    if |parts| == 1 {
      ExplodeLine(parts[0]);
    } else {
      ExplodeJoin(parts[1..]);
      ExplodeLineThen(parts[0], Join(parts[1..]));
    }
  }

  lemma {:induction false} ExplodeLine(a: string)
    requires NoLineFeed(a)
    ensures Explode(a) == [a]
    decreases |a|
  {
    if a != [] {
      ExplodeLine(a[1..]);
      assert [a[0]] + a[1..] == a;
    }
  }

  lemma {:induction false} ExplodeLineThen(a: string, b: string)
    requires NoLineFeed(a)
    ensures Explode(a + "\n" + b) == [a] + Explode(b)
    decreases |a|
  {
    if a == [] {
      assert a + "\n" + b == "\n" + b;
      assert ("\n" + b)[1..] == b;
    } else {
      ExplodeLineThen(a[1..], b);
      assert (a + "\n" + b)[1..] == a[1..] + "\n" + b;
      assert [a[0]] + a[1..] == a;
    }
  }

  /**
   * `array_slice($xs, -$n)`: a negative offset counts from the end and is
   * cut at the start of the list; a non-negative offset is cut at its end.
   * So `n > 0` keeps the last `n` items, `n == 0` keeps everything and
   * `n < 0` drops the first `-n` items.
   */
  function SliceLast<T>(xs: seq<T>, n: int): (w: seq<T>)
    ensures |w| <= |xs| && w == xs[|xs| - |w|..]
    ensures n > 0 ==> |w| == if n < |xs| then n else |xs|
    ensures n == 0 ==> w == xs
    ensures n < 0 ==> |w| == if -n < |xs| then |xs| + n else 0
  {
    var offset := -n;
    var start := if offset < 0 then (if |xs| + offset < 0 then 0 else |xs| + offset)
                 else (if offset > |xs| then |xs| else offset);
    xs[start..]
  }

  /** `array_reverse`. */
  function Reverse<T>(xs: seq<T>): (r: seq<T>)
    ensures |r| == |xs|
    decreases |xs|
  {
    if xs == [] then [] else Reverse(xs[1..]) + [xs[0]]
  }

  /** Position `k` of the reversed list holds position `|xs| - 1 - k` of the original. */
  lemma {:induction false} ReverseAt<T>(xs: seq<T>, k: nat)
    requires k < |xs|
    ensures Reverse(xs)[k] == xs[|xs| - 1 - k]
    decreases |xs|
  {
    if k < |xs| - 1 {
      ReverseAt(xs[1..], k);
    }
  }
}
