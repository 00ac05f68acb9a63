/**
 * String and list helpers on incentive token identifiers, which have the form
 * `"<chain>-<address>"`: JavaScript's `split("-")[1]`, `Array.indexOf` and the
 * order-preserving `Array.from(new Set(...))`.
 */
module TokenIds {
  import opened Checks

  /** What follows the first dash of `s`, or None when `s` has no dash. */
  function AfterFirstDash(s: string): Option<string>
  {
    if s == [] then None
    else if s[0] == '-' then Some(s[1..])
    else AfterFirstDash(s[1..])
  }

  /** The longest prefix of `s` that holds no dash. */
  function UpToDash(s: string): string
  {
    if s == [] || s[0] == '-' then [] else [s[0]] + UpToDash(s[1..])
  }

  /**
   * `s.split("-")[1]`: the second dash-separated segment of `s`, which is
   * `undefined` (None) when `s` holds no dash and may be empty.
   */
  function SecondSegment(s: string): Option<string>
  {
    match AfterFirstDash(s)
    case None => None
    case Some(rest) => Some(UpToDash(rest))
  }

  lemma {:induction false} AfterFirstDashShape(s: string)
    ensures AfterFirstDash(s).None? <==> '-' !in s
    ensures AfterFirstDash(s).Some? ==>
      exists p :: '-' !in p && s == p + "-" + AfterFirstDash(s).value
  {
    if s != [] && s[0] != '-' {
      AfterFirstDashShape(s[1..]);
      assert s == [s[0]] + s[1..];
      if AfterFirstDash(s[1..]).Some? {
        var p :| '-' !in p && s[1..] == p + "-" + AfterFirstDash(s[1..]).value;
        assert s == ([s[0]] + p) + "-" + AfterFirstDash(s).value;
      }
    } else if s != [] {
      assert s == [] + "-" + s[1..];
    }
  }

  lemma {:induction false} UpToDashShape(s: string)
    ensures '-' !in UpToDash(s)
    ensures exists rest :: s == UpToDash(s) + rest && (rest == [] || rest[0] == '-')
  {
    if s == [] || s[0] == '-' {
      assert s == UpToDash(s) + s;
    } else {
      UpToDashShape(s[1..]);
      var rest :| s[1..] == UpToDash(s[1..]) + rest && (rest == [] || rest[0] == '-');
      assert s == UpToDash(s) + rest;
    }
  }

  /**
   * `s` is `p + "-" + a + rest` with `p` and `a` free of dashes and `rest`
   * empty or starting at the next dash: `a` is the second segment of `s`.
   */
  predicate DashSplit(s: string, p: string, a: string, rest: string)
  {
    '-' !in p && '-' !in a && (rest == [] || rest[0] == '-') && s == p + "-" + a + rest
  }

  /**
   * `split("-")[1]` is absent exactly when the identifier holds no dash;
   * otherwise the identifier is a dash-free prefix, a dash, the segment
   * (itself dash-free), and nothing more or a remainder starting at the
   * next dash.
   */
  lemma SecondSegmentShape(s: string)
    ensures SecondSegment(s).None? <==> '-' !in s
    ensures SecondSegment(s).Some? ==>
      exists p, rest :: DashSplit(s, p, SecondSegment(s).value, rest)
  {
    AfterFirstDashShape(s);
    if AfterFirstDash(s).Some? {
      var t := AfterFirstDash(s).value;
      var p :| '-' !in p && s == p + "-" + t;
      UpToDashShape(t);
      var rest :| t == UpToDash(t) + rest && (rest == [] || rest[0] == '-');
      assert SecondSegment(s).value == UpToDash(t);
      assert p + "-" + UpToDash(t) + rest == p + "-" + (UpToDash(t) + rest);
      assert DashSplit(s, p, UpToDash(t), rest);
    }
  }

  lemma {:induction false} AfterFirstDashOf(p: string, t: string)
    requires '-' !in p
    ensures AfterFirstDash(p + "-" + t) == Some(t)
  {
    if p != [] {
      assert (p + "-" + t)[1..] == p[1..] + "-" + t;
      AfterFirstDashOf(p[1..], t);
    }
  }

  lemma {:induction false} UpToDashOf(a: string, rest: string)
    requires '-' !in a
    requires rest == [] || rest[0] == '-'
    ensures UpToDash(a + rest) == a
  {
    if a != [] {
      assert (a + rest)[1..] == a[1..] + rest;
      UpToDashOf(a[1..], rest);
    }
  }

  /** Conversely, the segment between the first and second dash is what `split("-")[1]` yields. */
  lemma SecondSegmentOf(s: string, p: string, a: string, rest: string)
    requires DashSplit(s, p, a, rest)
    ensures SecondSegment(s) == Some(a)
  {
    assert p + "-" + a + rest == p + "-" + (a + rest);
    AfterFirstDashOf(p, a + rest);
    UpToDashOf(a, rest);
  }

  /**
   * `isSolidityAddressValid("address", id.split("-")[1])`, with the address
   * check itself given as `isAddress`; an identifier without a second
   * segment has no address and fails.
   */
  predicate AddressOk(id: string, isAddress: string -> bool)
  {
    var a := SecondSegment(id);
    a.Some? && isAddress(a.value)
  }

  /** Every requested identifier passes the address check. */
  predicate AllAddressesOk(ids: seq<string>, isAddress: string -> bool)
  {
    forall i :: 0 <= i < |ids| ==> AddressOk(ids[i], isAddress)
  }

  /** The text a template literal shows for an address that may be undefined. */
  function Show(a: Option<string>): string
  {
    if a.Some? then a.value else "undefined"
  }

  /** `s.indexOf(x)`: the position of the first occurrence of `x`, or -1. */
  function IndexOf<T(==)>(s: seq<T>, x: T): (k: int)
    ensures -1 <= k < |s|
  {
    if s == [] then -1
    else if s[0] == x then 0
    else var k := IndexOf(s[1..], x); if k < 0 then -1 else k + 1
  }

  /** `indexOf` returns -1 exactly for an absent element, otherwise its first position. */
  lemma {:induction false} IndexOfFirst<T>(s: seq<T>, x: T)
    ensures IndexOf(s, x) == -1 <==> x !in s
    ensures IndexOf(s, x) >= 0 ==>
      s[IndexOf(s, x)] == x && forall j :: 0 <= j < IndexOf(s, x) ==> s[j] != x
  {
    if s != [] && s[0] != x {
      IndexOfFirst(s[1..], x);
      assert s == [s[0]] + s[1..];
      if IndexOf(s, x) >= 0 {
        assert forall j :: 1 <= j < IndexOf(s, x) ==> s[j] == s[1..][j - 1];
      }
    }
  }

  /**
   * `Array.from(new Set(s))`: the elements of `s` in order of first
   * occurrence, each once.
   */
  function Unique<T(==)>(s: seq<T>): seq<T>
  {
    if s == [] then []
    else var u := Unique(s[..|s| - 1]); if s[|s| - 1] in u then u else u + [s[|s| - 1]]
  }

  /** Appending an element leaves the first position of every earlier element alone. */
  lemma {:induction false} IndexOfAppend<T>(s: seq<T>, y: T, x: T)
    ensures x in s ==> IndexOf(s + [y], x) == IndexOf(s, x)
    ensures x !in s ==> IndexOf(s + [y], x) == if x == y then |s| else -1
  {
    if s != [] && s[0] != x {
      IndexOfAppend(s[1..], y, x);
      assert (s + [y])[1..] == s[1..] + [y];
      assert x in s <==> x in s[1..] by { assert s == [s[0]] + s[1..]; }
    }
  }

  /**
   * The deduplicated list holds exactly the elements of the input, none
   * twice, in the order of their first occurrence in the input.
   */
  lemma {:induction false} UniqueIsSet<T>(s: seq<T>)
    ensures forall x :: x in Unique(s) <==> x in s
    ensures forall i, j :: 0 <= i < j < |Unique(s)| ==> Unique(s)[i] != Unique(s)[j]
    ensures forall i, j :: 0 <= i < j < |Unique(s)| ==> IndexOf(s, Unique(s)[i]) < IndexOf(s, Unique(s)[j])
  {
    if s != [] {
      var init := s[..|s| - 1];
      var last := s[|s| - 1];
      var u := Unique(init);
      UniqueIsSet(init);
      assert s == init + [last];
      forall k | 0 <= k < |u|
        ensures IndexOf(s, u[k]) == IndexOf(init, u[k])
      {
        assert u[k] in Unique(init);
        IndexOfAppend(init, last, u[k]);
        assert IndexOf(init + [last], u[k]) == IndexOf(init, u[k]);
      }
      if last !in u {
        IndexOfAppend(init, last, last);
        assert Unique(s) == u + [last];
      }
    }
  }

  /** The first element of the input heads the deduplicated list. */
  lemma UniqueFirst<T>(s: seq<T>)
    requires s != []
    ensures |Unique(s)| > 0 && Unique(s)[0] == s[0]
  {
    UniqueIsSet(s);
    var u := Unique(s);
    assert s[0] in u;
    var k :| 0 <= k < |u| && u[k] == s[0];
    if k > 0 {
      assert IndexOf(s, u[0]) < IndexOf(s, u[k]);
      IndexOfFirst(s, u[0]);
    }
  }
}
