/**
 * Texts over ordinary characters and two kinds of symbolic character: `Mac(key, input)` stands for
 * the base64url form of HMAC-SHA256 (RFC 2104) of a text under a key, and `Enc(v)` for the base64url
 * form (section 5 of RFC 4648) of a serialised value. Both are injective and contain no ".".
 */
module SymbolicText {
  import opened Options

  datatype Sym<V> = Chr(c: char) | Mac(key: string, input: seq<Sym<V>>) | Enc(v: V)

  type Text<V> = seq<Sym<V>>

  function FromString<V>(s: string): (t: Text<V>)
    ensures |t| == |s| && forall i :: 0 <= i < |s| ==> t[i] == Chr(s[i])
  {
    seq(|s|, i requires 0 <= i < |s| => Chr(s[i]))
  }

  function Signature<V>(input: Text<V>, key: string): Text<V> {
    [Mac(key, input)]
  }

  ghost predicate DotFree<V>(t: Text<V>) {
    Chr('.') !in t
  }

  // ------------------------------------------------------------------ join and split on "."

  function Join<V>(parts: seq<Text<V>>): Text<V> {
    if |parts| == 0 then []
    else if |parts| == 1 then parts[0]
    else parts[0] + [Chr('.')] + Join(parts[1..])
  }

  /** Four segments are three segments, a dot and the last. */
  lemma JoinFour<V>(a: Text<V>, b: Text<V>, c: Text<V>, d: Text<V>)
    ensures Join([a, b, c]) == a + [Chr('.')] + b + [Chr('.')] + c
    ensures Join([a, b, c, d]) == Join([a, b, c]) + [Chr('.')] + d
  {
    var dot: Text<V> := [Chr('.')];
    assert [a, b, c, d][1..] == [b, c, d] && [b, c, d][1..] == [c, d] && [c, d][1..] == [d];
    assert [a, b, c][1..] == [b, c] && [b, c][1..] == [c];
    assert Join([c, d]) == c + dot + d && Join([b, c]) == b + dot + c;
    assert Join([b, c, d]) == b + dot + Join([c, d]);
    assert a + dot + (b + dot + c) == a + dot + b + dot + c;
    assert a + dot + (b + dot + (c + dot + d)) == a + dot + b + dot + c + dot + d;
  }

  /** `value.split(".")`. */
  function Split<V(==)>(t: Text<V>): (parts: seq<Text<V>>)
    ensures |parts| >= 1
  {
    if t == [] then [[]]
    else
      var rest := Split(t[1..]);
      if t[0] == Chr('.') then [[]] + rest else [[t[0]] + rest[0]] + rest[1..]
  }

  lemma {:induction false} SplitSegment<V>(segment: Text<V>, rest: Text<V>)
    requires DotFree(segment)
    ensures Split(segment) == [segment]
    ensures Split(segment + [Chr('.')] + rest) == [segment] + Split(rest)
  {
    var whole := segment + [Chr('.')] + rest;
    if segment == [] {
      assert whole[1..] == rest;
    } else {
      assert whole[1..] == segment[1..] + [Chr('.')] + rest;
      assert segment == [segment[0]] + segment[1..];
      SplitSegment(segment[1..], rest);
    }
  }

  lemma {:induction false} SplitJoin<V>(parts: seq<Text<V>>)
    requires |parts| >= 1 && forall p <- parts :: DotFree(p)
    ensures Split(Join(parts)) == parts
  {
    if |parts| == 1 {
      SplitSegment(parts[0], []);
    } else {
      SplitJoin(parts[1..]);
      SplitSegment(parts[0], Join(parts[1..]));
    }
  }

  lemma {:induction false} JoinSplit<V>(t: Text<V>)
    ensures Join(Split(t)) == t
    ensures forall p <- Split(t) :: DotFree(p)
  {
    if t != [] {
      JoinSplit(t[1..]);
      var rest := Split(t[1..]);
      if t[0] == Chr('.') {
        assert Split(t)[1..] == rest;
      } else {
        assert Split(t)[1..] == rest[1..];
        forall p | p in Split(t) ensures DotFree(p) {
          assert p == [t[0]] + rest[0] || p in rest[1..];
          assert DotFree(rest[0]);
        }
      }
      assert t == [t[0]] + t[1..];
    }
  }

  // ------------------------------------------------------------------ decimal numbers

  function Digit(d: nat): char
    requires d < 10
  {
    '0' + d as char
  }

  function ShowNat(n: nat): string {
    if n < 10 then [Digit(n)] else ShowNat(n / 10) + [Digit(n % 10)]
  }

  /** How a template literal prints an integer. */
  function Show(n: int): string {
    if n < 0 then "-" + ShowNat(-n) else ShowNat(n)
  }

  predicate IsDigit(c: char) {
    '0' <= c <= '9'
  }

  function ReadNat(s: string): Option<nat> {
    if s == [] || !IsDigit(s[|s| - 1]) then None
    else
      var d: nat := s[|s| - 1] as int - '0' as int;
      if |s| == 1 then Some(d)
      else
        var front := ReadNat(s[..|s| - 1]);
        if front.None? then None else Some(10 * front.value + d)
  }

  function Negated(n: int): Option<int> {
    Some(-n)
  }

  /** Number(text) on the decimal integers; the empty text reads as zero, as Number does. */
  function Read(s: string): Option<int> {
    if s == "" then Some(0)
    else if s[0] == '-' then
      var n := ReadNat(s[1..]);
      if n.None? then None else Negated(n.value)
    else
      var n := ReadNat(s);
      if n.None? then None else Some(n.value)
  }

  lemma {:induction false} ShowNatReads(n: nat)
    ensures ReadNat(ShowNat(n)) == Some(n)
    ensures |ShowNat(n)| > 0 && forall c <- ShowNat(n) :: IsDigit(c)
  {
    if n >= 10 {
      ShowNatReads(n / 10);
      var s := ShowNat(n);
      assert s[..|s| - 1] == ShowNat(n / 10);
    }
  }

  lemma ShowReads(n: int)
    ensures Read(Show(n)) == Some(n)
    ensures Show(n) != "" && '.' !in Show(n)
  {
    ShowNatReads(if n < 0 then -n else n);
    if n < 0 {
      assert Show(n)[1..] == ShowNat(-n);
    } else {
      assert IsDigit(ShowNat(n)[0]);
    }
  }

  /** Number(text) on a text: anything that is not made of characters is not a number. */
  function NumberOf<V>(t: Text<V>): Option<int> {
    if forall i :: 0 <= i < |t| ==> t[i].Chr? then
      Read(seq(|t|, i requires 0 <= i < |t| && t[i].Chr? => t[i].c))
    else None
  }

  function NumberText<V>(n: int): Text<V> {
    FromString(Show(n))
  }

  lemma NumberTextReads<V>(n: int)
    ensures NumberOf<V>(NumberText(n)) == Some(n)
    ensures DotFree<V>(NumberText(n))
  {
    ShowReads(n);
    var t := NumberText<V>(n);
    assert seq(|t|, i requires 0 <= i < |t| && t[i].Chr? => t[i].c) == Show(n);
  }
}
