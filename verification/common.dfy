/** Helpers shared by every screen of the front-end: an Option type, the few
    JavaScript string operations the handlers rely on (trim, toLowerCase,
    includes, startsWith, join), order-preserving filtering and the
    index-based list edits that React state updates perform. */
module Common {

  /** An optional value: `undefined`/`null` in the source becomes None. */
  datatype Option<+T> = None | Some(value: T) {
    /** `x ?? default`, or `x || default` for values that are never falsy. */
    function GetOr(default: T): T {
      match this
      case Some(v) => v
      case None => default
    }
  }

  /** How a request issued through the API client settled: with an error
      response (which may carry a server message) or with no response at all. */
  datatype Failure = ServerError(message: Option<string>) | NoResponse

  /** `err.response?.data?.message || fallback`: the server message when there
      is a non-empty one, otherwise the fallback text. */
  function MessageOr(f: Failure, fallback: string): (r: string)
    ensures f.ServerError? && f.message.Some? && f.message.value != "" ==> r == f.message.value
    ensures f.NoResponse? || f.message.None? || f.message == Some("") ==> r == fallback
  {
    match f
    case ServerError(Some(m)) => if m != "" then m else fallback
    case _ => fallback
  }

  /** A JavaScript string value is truthy iff it is non-empty. */
  predicate Truthy(s: Option<string>) {
    s.Some? && s.value != ""
  }

  // ---------------------------------------------------------------------------
  // Whitespace and String.prototype.trim
  // ---------------------------------------------------------------------------

  /** The characters ECMAScript's `trim` removes: WhiteSpace (TAB, VT, FF,
      ZWNBSP and every space separator) and LineTerminator (LF, CR, LS, PS). */
  predicate IsSpace(c: char) {
    || c == '\t' || c == '\n' || c == '\r' || c == '\U{000B}' || c == '\U{000C}'
    || c == ' ' || c == '\U{00A0}' || c == '\U{1680}'
    || ('\U{2000}' <= c <= '\U{200A}')
    || c == '\U{2028}' || c == '\U{2029}' || c == '\U{202F}' || c == '\U{205F}'
    || c == '\U{3000}' || c == '\U{FEFF}'
  }

  predicate AllSpace(s: string) {
    forall i :: 0 <= i < |s| ==> IsSpace(s[i])
  }

  /** Drops the leading whitespace: the result is the suffix of `s` that
      starts at the first non-space character. */
  function TrimStart(s: string): (r: string)
    ensures |r| <= |s| && r == s[|s| - |r|..]
    ensures forall i :: 0 <= i < |s| - |r| ==> IsSpace(s[i])
    ensures r != [] ==> !IsSpace(r[0])
    decreases |s|
  {
    if s != [] && IsSpace(s[0]) then TrimStart(s[1..]) else s
  }

  /** Drops the trailing whitespace: the result is the prefix of `s` that
      ends at the last non-space character. */
  function TrimEnd(s: string): (r: string)
    ensures |r| <= |s| && r == s[..|r|]
    ensures forall i :: |r| <= i < |s| ==> IsSpace(s[i])
    ensures r != [] ==> !IsSpace(r[|r| - 1])
    decreases |s|
  {
    if s != [] && IsSpace(s[|s| - 1]) then TrimEnd(s[..|s| - 1]) else s
  }

  function Trim(s: string): string {
    TrimEnd(TrimStart(s))
  }

  /** `!s.trim()`: the string trims to the empty string. */
  predicate IsBlank(s: string) {
    Trim(s) == ""
  }

  /** A string trims to empty exactly when every character is whitespace. */
  lemma BlankIffAllSpace(s: string)
    ensures IsBlank(s) <==> AllSpace(s)
  {
    var t := TrimStart(s);
    if AllSpace(s) {
      assert t == [] by {
        if t != [] {
          assert false;
        }
      }
    } else {
      var k :| 0 <= k < |s| && !IsSpace(s[k]);
      assert k >= |s| - |t|;
      assert t != [] && !IsSpace(t[0]);
      var e := TrimEnd(t);
      assert e != [] by {
        if e == [] {
          assert false;
        }
      }
    }
  }

  // ---------------------------------------------------------------------------
  // String.prototype.toLowerCase, includes, startsWith; Array.prototype.join
  // ---------------------------------------------------------------------------

  /** Lower-case mapping for Basic Latin, Latin-1 and the Cyrillic capitals
      U+0400..U+042F (the alphabets the application's data is written in). */
  function Lower(c: char): (r: char)
    ensures 'A' <= c <= 'Z' ==> r as int == c as int + 32
    ensures !('A' <= c <= 'Z') && !('\U{00C0}' <= c <= '\U{00DE}') && !('\U{0400}' <= c <= '\U{042F}') ==> r == c
  {
    if 'A' <= c <= 'Z' then (c as int + 32) as char
    else if '\U{00C0}' <= c <= '\U{00DE}' && c != '\U{00D7}' then (c as int + 32) as char
    else if '\U{0410}' <= c <= '\U{042F}' then (c as int + 32) as char
    else if '\U{0400}' <= c <= '\U{040F}' then (c as int + 80) as char
    else c
  }

  function LowerStr(s: string): (r: string)
    ensures |r| == |s|
    ensures forall i :: 0 <= i < |s| ==> r[i] == Lower(s[i])
  {
    seq(|s|, i requires 0 <= i < |s| => Lower(s[i]))
  }

  predicate StartsWith(s: string, prefix: string) {
    |prefix| <= |s| && s[..|prefix|] == prefix
  }

  /** `s.includes(part)`, scanning from the left. */
  predicate Contains(s: string, part: string)
    decreases |s|
  {
    StartsWith(s, part) || (s != [] && Contains(s[1..], part))
  }

  /** `part` occurs in `s` at position `i`. */
  predicate OccursAt(s: string, part: string, i: int) {
    0 <= i && i + |part| <= |s| && s[i..i + |part|] == part
  }

  /** The scanning definition agrees with "occurs at some position". */
  lemma {:induction false} ContainsIffOccurs(s: string, part: string)
    ensures Contains(s, part) <==> exists i :: OccursAt(s, part, i)
    decreases |s|
  {
    if StartsWith(s, part) {
      assert OccursAt(s, part, 0);
    } else if s == [] {
    } else {
      ContainsIffOccurs(s[1..], part);
      if exists i :: OccursAt(s[1..], part, i) {
        var i :| OccursAt(s[1..], part, i);
        assert s[i + 1..i + 1 + |part|] == s[1..][i..i + |part|];
        assert OccursAt(s, part, i + 1);
      }
      if exists i :: OccursAt(s, part, i) {
        var i :| OccursAt(s, part, i);
        if i == 0 {
          assert false;
        }
        assert s[1..][i - 1..i - 1 + |part|] == s[i..i + |part|];
        assert OccursAt(s[1..], part, i - 1);
      }
    }
  }

  /** An occurrence at a known position makes `includes` true. */
  lemma ContainsAt(s: string, part: string, i: int)
    requires OccursAt(s, part, i)
    ensures Contains(s, part)
  {
    ContainsIffOccurs(s, part);
  }

  /** `parts.join(sep)`. */
  function Join(parts: seq<string>, sep: string): (r: string)
    ensures parts == [] ==> r == ""
    ensures |parts| == 1 ==> r == parts[0]
    ensures |parts| >= 1 ==> StartsWith(r, parts[0])
    ensures |parts| >= 2 ==> r == parts[0] + sep + Join(parts[1..], sep)
  {
    if |parts| == 0 then ""
    else if |parts| == 1 then parts[0]
    else parts[0] + sep + Join(parts[1..], sep)
  }

  /** Joining a list with one more part appends the separator and the part. */
  lemma {:induction false} JoinAppend(parts: seq<string>, last: string, sep: string)
    requires parts != []
    ensures Join(parts + [last], sep) == Join(parts, sep) + sep + last
    decreases |parts|
  {
    if |parts| == 1 {
      assert (parts + [last])[1..] == [last];
    } else {
      JoinAppend(parts[1..], last, sep);
      assert (parts + [last])[1..] == parts[1..] + [last];
    }
  }

  // ---------------------------------------------------------------------------
  // String.prototype.length
  // ---------------------------------------------------------------------------

  /** A character outside the Basic Multilingual Plane: JavaScript stores it
      as a surrogate pair, two code units. */
  predicate IsAstral(c: char) {
    c as int > 0xFFFF
  }

  /** `s.length`: the number of UTF-16 code units, which counts every
      character above U+FFFF twice. */
  function Utf16Length(s: string): (n: nat)
    ensures |s| <= n <= 2 * |s|
    ensures (forall i :: 0 <= i < |s| ==> !IsAstral(s[i])) ==> n == |s|
    ensures (forall i :: 0 <= i < |s| ==> IsAstral(s[i])) ==> n == 2 * |s|
    decreases |s|
  {
    if s == [] then 0
    else (if IsAstral(s[0]) then 2 else 1) + Utf16Length(s[1..])
  }

  // ---------------------------------------------------------------------------
  // Order-preserving filtering and subsequences
  // ---------------------------------------------------------------------------

  /** `xs` can be obtained from `ys` by deleting elements (order is kept). */
  predicate IsSubseq<T(==)>(xs: seq<T>, ys: seq<T>)
    decreases |ys|
  {
    if xs == [] then true
    else if ys == [] then false
    else if xs[0] == ys[0] then IsSubseq(xs[1..], ys[1..])
    else IsSubseq(xs, ys[1..])
  }

  /** `s.filter(keep)`: the elements satisfying `keep`, in their original order. */
  function Filter<T(==,!new)>(keep: T -> bool, s: seq<T>): (r: seq<T>)
    ensures |r| <= |s|
    ensures forall x :: x in r <==> x in s && keep(x)
    ensures forall i :: 0 <= i < |r| ==> keep(r[i])
    ensures IsSubseq(r, s)
    ensures forall x :: keep(x) ==> multiset(r)[x] == multiset(s)[x]
    decreases |s|
  {
    if s == [] then []
    else
      assert s == [s[0]] + s[1..];
      if keep(s[0]) then [s[0]] + Filter(keep, s[1..])
      else Filter(keep, s[1..])
  }

  /** Filtering with a predicate and with its negation splits a list: every
      element lands in exactly one of the two results, as often as it occurs. */
  lemma {:induction false} FilterPartition<T(!new)>(keep: T -> bool, s: seq<T>)
    ensures multiset(Filter(keep, s)) + multiset(Filter(x => !keep(x), s)) == multiset(s)
    decreases |s|
  {
    if s != [] {
      var drop := x => !keep(x);
      FilterPartition(keep, s[1..]);
      var kept, dropped := Filter(keep, s[1..]), Filter(drop, s[1..]);
      assert s == [s[0]] + s[1..];
      if keep(s[0]) {
        assert Filter(keep, s) == [s[0]] + kept && Filter(drop, s) == dropped;
      } else {
        assert Filter(keep, s) == kept && Filter(drop, s) == [s[0]] + dropped;
      }
    }
  }

  /** A filter that every element passes returns the list itself. */
  lemma {:induction false} FilterKeepsAll<T(!new)>(keep: T -> bool, s: seq<T>)
    requires forall x :: x in s ==> keep(x)
    ensures Filter(keep, s) == s
    decreases |s|
  {
    if s != [] {
      assert s[0] in s;
      assert forall x :: x in s[1..] ==> x in s;
      FilterKeepsAll(keep, s[1..]);
      assert s == [s[0]] + s[1..];
    }
  }

  /** Filtering a concatenation filters each part. */
  lemma {:induction false} FilterConcat<T(!new)>(keep: T -> bool, a: seq<T>, b: seq<T>)
    ensures Filter(keep, a + b) == Filter(keep, a) + Filter(keep, b)
    decreases |a|
  {
    if a == [] {
      assert a + b == b;
    } else {
      var ab := a + b;
      assert ab != [] && ab[0] == a[0] && ab[1..] == a[1..] + b;
      FilterConcat(keep, a[1..], b);
      if keep(a[0]) {
        calc {
          Filter(keep, ab);
          [a[0]] + Filter(keep, a[1..] + b);
          [a[0]] + (Filter(keep, a[1..]) + Filter(keep, b));
          ([a[0]] + Filter(keep, a[1..])) + Filter(keep, b);
        }
      }
    }
  }

  /** Filtering twice with the same predicate is filtering once. */
  lemma FilterTwice<T(!new)>(keep: T -> bool, s: seq<T>)
    ensures Filter(keep, Filter(keep, s)) == Filter(keep, s)
  {
    FilterKeepsAll(keep, Filter(keep, s));
  }

  /** `s.find(p)`: the first element satisfying `p`. */
  function Find<T>(p: T -> bool, s: seq<T>): (r: Option<T>)
    ensures r.None? <==> forall i :: 0 <= i < |s| ==> !p(s[i])
    ensures r.Some? ==> exists i :: 0 <= i < |s| && s[i] == r.value && p(s[i]) && forall j :: 0 <= j < i ==> !p(s[j])
    decreases |s|
  {
    if s == [] then None
    else if p(s[0]) then Some(s[0])
    else
      var r := Find(p, s[1..]);
      assert r.Some? ==> exists i :: 0 <= i < |s[1..]| && s[1..][i] == r.value && p(s[1..][i]) && forall j :: 0 <= j < i ==> !p(s[1..][j]);
      r
  }

  // ---------------------------------------------------------------------------
  // Index-based list edits
  // ---------------------------------------------------------------------------

  /** `s.filter((_, j) => j !== i)`: drops position `i`; an index outside the
      list leaves it unchanged. */
  function RemoveAt<T>(s: seq<T>, i: int): (r: seq<T>)
    ensures 0 <= i < |s| ==> |r| == |s| - 1
    ensures 0 <= i < |s| ==> forall j :: 0 <= j < i ==> r[j] == s[j]
    ensures 0 <= i < |s| ==> forall j :: i <= j < |r| ==> r[j] == s[j + 1]
    ensures !(0 <= i < |s|) ==> r == s
    decreases |s|
  {
    if s == [] then []
    else if i == 0 then s[1..]
    else [s[0]] + RemoveAt(s[1..], i - 1)
  }

  /** `s.map((x, j) => j === i ? edit(x) : x)`: only position `i` changes. */
  function UpdateAt<T>(s: seq<T>, i: int, edit: T -> T): (r: seq<T>)
    ensures |r| == |s|
    ensures forall j :: 0 <= j < |s| && j != i ==> r[j] == s[j]
    ensures 0 <= i < |s| ==> r[i] == edit(s[i])
  {
    seq(|s|, j requires 0 <= j < |s| => if j == i then edit(s[j]) else s[j])
  }

  // ---------------------------------------------------------------------------
  // Selections kept in a Set
  // ---------------------------------------------------------------------------

  /** The checkbox handler on a `Set`: delete a present id, add an absent one. */
  function Toggle<T(!new)>(selected: set<T>, x: T): (r: set<T>)
    ensures x in r <==> x !in selected
    ensures forall y :: y != x ==> (y in r <==> y in selected)
  {
    if x in selected then selected - {x} else selected + {x}
  }

  /** Toggling the same id twice restores the selection. */
  lemma ToggleTwice<T(!new)>(selected: set<T>, x: T)
    ensures Toggle(Toggle(selected, x), x) == selected
  {
  }

  // ---------------------------------------------------------------------------
  // Selections kept in an array
  // ---------------------------------------------------------------------------

  /** `ids.filter(id => id !== x)`. */
  function Without<T(==,!new)>(ids: seq<T>, x: T): (r: seq<T>)
    ensures x !in r
    ensures forall y :: y != x ==> (y in r <==> y in ids)
    ensures |r| <= |ids|
    decreases |ids|
  {
    if ids == [] then []
    else if ids[0] == x then Without(ids[1..], x)
    else [ids[0]] + Without(ids[1..], x)
  }

  predicate NoDuplicates<T(==,!new)>(ids: seq<T>) {
    forall i, j :: 0 <= i < j < |ids| ==> ids[i] != ids[j]
  }

  /** `prev.includes(x) ? prev.filter(y => y !== x) : [...prev, x]`. */
  function ListToggle<T(==,!new)>(prev: seq<T>, x: T): (r: seq<T>)
    ensures x in r <==> x !in prev
    ensures forall y :: y != x ==> (y in r <==> y in prev)
  {
    if x in prev then Without(prev, x) else prev + [x]
  }

  lemma {:induction false} WithoutKeepsNoDuplicates<T(!new)>(ids: seq<T>, x: T)
    requires NoDuplicates(ids)
    ensures NoDuplicates(Without(ids, x))
    decreases |ids|
  {
    if ids != [] {
      assert NoDuplicates(ids[1..]);
      WithoutKeepsNoDuplicates(ids[1..], x);
      if ids[0] != x {
        assert ids[0] !in ids[1..];
      }
    }
  }

  /** A list toggle never introduces a duplicate. */
  lemma ListToggleKeepsNoDuplicates<T(!new)>(prev: seq<T>, x: T)
    requires NoDuplicates(prev)
    ensures NoDuplicates(ListToggle(prev, x))
  {
    if x in prev {
      WithoutKeepsNoDuplicates(prev, x);
    }
  }

  lemma {:induction false} WithoutAppend<T(!new)>(ids: seq<T>, x: T)
    requires x !in ids
    ensures Without(ids + [x], x) == ids
    decreases |ids|
  {
    if ids == [] {
      assert [x][1..] == [];
    } else {
      assert (ids + [x])[1..] == ids[1..] + [x];
      WithoutAppend(ids[1..], x);
    }
  }

  /** Toggling an absent element on and off restores the list exactly. */
  lemma ListToggleUndoesAppend<T(!new)>(prev: seq<T>, x: T)
    requires x !in prev
    ensures ListToggle(ListToggle(prev, x), x) == prev
  {
    assert x in prev + [x];
    WithoutAppend(prev, x);
  }

  /** Toggling twice restores membership; a present element moves to the end. */
  lemma ListToggleTwice<T(!new)>(prev: seq<T>, x: T)
    ensures forall y :: y in ListToggle(ListToggle(prev, x), x) <==> y in prev
    ensures x in prev ==> ListToggle(ListToggle(prev, x), x) == Without(prev, x) + [x]
  {
  }
}
