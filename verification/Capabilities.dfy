/** Agent capability lists in canonical form. */
module Capabilities {
  import opened Prelude
  import opened Ordering
  import opened Policy

  const MAXIMUM_CAPABILITIES := 64
  const MAXIMUM_LENGTH := 128

  /** Trimming, lower-casing and the length in bytes, as the text library has them. */
  datatype Text = Text(trim: string -> string, lower: string -> string, size: string -> nat)

  function Canon(t: Text, s: string): string {
    t.lower(t.trim(s))
  }

  /** Canonical text stays as it is. */
  ghost predicate Settles(t: Text) {
    forall s :: Canon(t, Canon(t, s)) == Canon(t, s)
  }

  predicate Acceptable(t: Text, values: seq<string>) {
    && |values| <= MAXIMUM_CAPABILITIES
    && forall v :: v in values ==> Canon(t, v) != "" && t.size(Canon(t, v)) <= MAXIMUM_LENGTH
  }

  /** The image of the inputs under trimming and lower-casing. */
  function Image(t: Text, values: seq<string>): set<string> {
    set v | v in values :: Canon(t, v)
  }

  /** The answer for a list: its normal form if it is acceptable, and a refusal if not. */
  ghost predicate Normalises(t: Text, values: seq<string>, r: Option<seq<string>>) {
    && (r.Some? <==> Acceptable(t, values))
    && (r.Some? ==> Increasing(r.value) && Elements(r.value) == Image(t, values))
  }

  /** Accepts exactly the acceptable lists, and returns the increasing list of their image. */
  method NormalizeCapabilities(t: Text, values: seq<string>) returns (r: Option<seq<string>>)
    ensures r.Some? <==> Acceptable(t, values)
    ensures r.Some? ==> Increasing(r.value) && Elements(r.value) == Image(t, values)
    ensures r.Some? <==> |values| <= 64 && forall v :: v in values ==>
                           t.lower(t.trim(v)) != "" && t.size(t.lower(t.trim(v))) <= 128
    ensures r.Some? ==> forall x :: x in r.value <==> exists v :: v in values && x == t.lower(t.trim(v))
  {
    if |values| > MAXIMUM_CAPABILITIES {
      return None;
    }
    var result: seq<string> := [];
    for i := 0 to |values|
      invariant Distinct(result)
      invariant forall v :: v in values[..i] ==> Canon(t, v) != "" && t.size(Canon(t, v)) <= MAXIMUM_LENGTH
      invariant forall x :: x in result <==> exists v :: v in values[..i] && Canon(t, v) == x
    {
      var value := Canon(t, values[i]);
      assert values[..i + 1] == values[..i] + [values[i]];
      if value == "" || t.size(value) > MAXIMUM_LENGTH {
        assert values[i] in values;
        return None;
      }
      if value !in result {
        result := result + [value];
      }
    }
    assert values[..|values|] == values;
    ghost var found := result;
    StringOrderIsTotal();
    result := SortBy(result, AtMost);
    SortedDistinctIsIncreasing(found, result);
    assert Elements(result) == Image(t, values);
    forall x ensures x in result <==> exists v :: v in values && x == t.lower(t.trim(v)) {
      assert x in result <==> x in Elements(result);
    }
    return Some(result);
  }

  // ----- normal forms -----

  /** A duplicate-free list is no longer than the list it is the image of. */
  lemma {:induction false} ImageIsNoLarger(t: Text, values: seq<string>)
    ensures |Image(t, values)| <= |values|
  {
    if values != [] {
      var init, last := values[..|values| - 1], values[|values| - 1];
      assert values == init + [last];
      assert Image(t, values) == Image(t, init) + {Canon(t, last)};
      ImageIsNoLarger(t, init);
    }
  }

  lemma {:induction false} IncreasingCounts(s: seq<string>)
    requires Increasing(s)
    ensures |Elements(s)| == |s|
  {
    if s != [] {
      TailElements(s);
      IncreasingCounts(s[1..]);
    }
  }

  /** Canonical lists are their own image. */
  lemma SettledImage(t: Text, values: seq<string>, normal: seq<string>)
    requires Settles(t) && Elements(normal) == Image(t, values)
    ensures forall x :: x in normal ==> Canon(t, x) == x
    ensures Image(t, normal) == Elements(normal)
  {
    forall x | x in normal ensures Canon(t, x) == x {
      assert x in Elements(normal);
      var v :| v in values && Canon(t, v) == x;
      assert Canon(t, Canon(t, v)) == Canon(t, v);
    }
    assert forall x :: x in Elements(normal) <==> x in normal;
  }

  /**
   Idempotence: normalising a normal form accepts it and returns it unchanged, for any
   text library whose trimming and lower-casing settle at once.
   */
  lemma NormalFormIsFixed(t: Text, values: seq<string>, normal: seq<string>, r: Option<seq<string>>)
    requires Settles(t)
    requires Normalises(t, values, Some(normal)) && Normalises(t, normal, r)
    ensures Acceptable(t, normal) && r == Some(normal)
  {
    SettledImage(t, values, normal);
    ImageIsNoLarger(t, values);
    IncreasingCounts(normal);
    forall x | x in normal ensures Canon(t, x) != "" && t.size(Canon(t, x)) <= MAXIMUM_LENGTH {
      assert x in Elements(normal);
      var v :| v in values && Canon(t, v) == x;
    }
    IncreasingUnique(r.value, normal);
  }

  /** Reordering or repeating accepted inputs does not change their normal form. */
  lemma NormalFormIsCanonical(
    t: Text, values: seq<string>, normal: seq<string>, values': seq<string>, normal': seq<string>)
    requires forall v :: v in values <==> v in values'
    requires Normalises(t, values, Some(normal)) && Normalises(t, values', Some(normal'))
    ensures normal == normal'
  {
    assert Image(t, values) == Image(t, values');
    IncreasingUnique(normal, normal');
  }

  // ----- plain text -----

  function LowerLetter(c: char): char {
    if 'A' <= c <= 'Z' then (c as int + 32) as char else c
  }

  function ToLower(s: string): (r: string)
    ensures |r| == |s| && forall i | 0 <= i < |s| :: r[i] == LowerLetter(s[i])
  {
    seq(|s|, i requires 0 <= i < |s| => LowerLetter(s[i]))
  }

  /** Text of one byte a character. */
  function PlainText(): Text {
    Text(TrimSpace, ToLower, (s: string) => |s|)
  }

  predicate Trimmed(s: string) {
    s != [] ==> !IsSpace(s[0]) && !IsSpace(s[|s| - 1])
  }

  lemma {:induction false} TrimRightTrims(s: string)
    ensures TrimRight(s) != [] ==> !IsSpace(TrimRight(s)[|TrimRight(s)| - 1]) && TrimRight(s)[0] == s[0]
    ensures s == [] ==> TrimRight(s) == []
  {
    if s != [] && IsSpace(s[|s| - 1]) {
      TrimRightTrims(s[..|s| - 1]);
    }
  }

  lemma PlainTextSettles()
    ensures Settles(PlainText())
  {
    var t := PlainText();
    forall s ensures Canon(t, Canon(t, s)) == Canon(t, s) {
      TrimLeftKeepsSuffix(s);
      TrimRightTrims(TrimLeft(s));
      assert Trimmed(TrimSpace(s));
      var c := Canon(t, s);
      assert Trimmed(c) && TrimSpace(c) == c;
      assert ToLower(c) == c;
    }
  }
}
