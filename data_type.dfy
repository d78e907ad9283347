/**
 * `generate_value_by_type` (executor/generators/common/data_type.rs): one
 * SQL literal for a column, chosen by its declared type after upper-casing.
 * UPDATE and UPSERT inline the same match; they use this function too.
 */
module DataType {
  import opened Rng
  import opened Text
  import opened Schema

  /** The arms of the match on the upper-cased type name. */
  datatype TypeTag = Integer | Real | TextType | Blob | Other

  function Tag(ty: string): TypeTag
  {
    var u := ToUpper(ty);
    if u == "INTEGER" then Integer
    else if u == "REAL" then Real
    else if u == "TEXT" then TextType
    else if u == "BLOB" then Blob
    else Other
  }

  /** How many draws a literal of this type consumes. */
  function DrawsFor(ty: string): nat
  {
    match Tag(ty)
    case Integer => 1
    case Real => 1
    case TextType => 1
    case _ => 0
  }

  /**
   * Rust's `format!("{}", d as f64 / 100.0)`: the shortest decimal that reads
   * back as the same double, which for these values is `d / 100` written
   * with its trailing zero fraction digits (and a bare point) dropped.
   */
  function RealText(d: nat): string
  {
    var whole := NatToString(d / 100);
    var frac := d % 100;
    if frac == 0 then whole
    else if frac % 10 == 0 then whole + "." + [DigitChar(frac / 10)]
    else whole + "." + [DigitChar(frac / 10), DigitChar(frac % 10)]
  }

  function ValueByType(ty: string, s: u32): (string, u32)
  {
    match Tag(ty)
    case Integer =>
      var (d, s') := Draw(s);
      (NatToString(d % 1000), s')
    case Real =>
      var (d, s') := Draw(s);
      (RealText(d), s')
    case TextType =>
      var (d, s') := Draw(s);
      ("'val" + NatToString(d % 1000) + "'", s')
    case Blob => ("'blob'", s)
    case Other => ("NULL", s)
  }

  predicate AllDigits(v: string)
  {
    forall i :: 0 <= i < |v| ==> IsDigit(v[i])
  }

  /** A decimal number below 1000. */
  predicate IsSmallInteger(v: string)
  {
    |v| > 0 && AllDigits(v) && ParseNat(v) < 1000
  }

  /** Digits, optionally followed by a point and one or two more digits. */
  predicate IsUnsignedDecimal(v: string)
  {
    (|v| > 0 && AllDigits(v))
    || exists k :: 0 < k < |v| - 1 && v[k] == '.' && AllDigits(v[..k]) && AllDigits(v[k + 1..]) && |v| - k - 1 <= 2
  }

  /**
   * The literal syntax each type tag calls for, stated on the text alone:
   * this is what "every literal matches its column's type" means.
   */
  predicate LiteralFor(ty: string, v: string)
  {
    match Tag(ty)
    case Integer => IsSmallInteger(v)
    case Real => IsUnsignedDecimal(v)
    case TextType => |v| >= 6 && v[..4] == "'val" && v[|v| - 1] == '\'' && IsSmallInteger(v[4..|v| - 1])
    case Blob => v == "'blob'"
    case Other => v == "NULL"
  }

  lemma SmallInteger(n: nat)
    requires n < 1000
    ensures IsSmallInteger(NatToString(n))
  {
    NatToStringRoundTrip(n);
  }

  lemma RealTextIsDecimal(d: nat)
    ensures IsUnsignedDecimal(RealText(d))
  {
    var whole := NatToString(d / 100);
    var v := RealText(d);
    if d % 100 != 0 {
      var k := |whole|;
      assert v[k] == '.' && v[..k] == whole;
    }
  }

  /** Upper-casing happens before the match, so the type's letter case does not matter. */
  lemma TagIgnoresCase(ty: string)
    ensures Tag(ToUpper(ty)) == Tag(ty)
    ensures Tag("integer") == Integer && Tag("Text") == TextType && Tag("blob") == Blob
  {
    ToUpperIdempotent(ty);
    assert ToUpper("integer") == "INTEGER";
    assert ToUpper("Text") == "TEXT";
    assert ToUpper("blob") == "BLOB";
  }

  /**
   * Every literal has the syntax of its column's type; INTEGER and TEXT
   * carry a number in 0..999 taken from one draw, BLOB and unknown types are
   * constants that draw nothing, and exactly `DrawsFor(ty)` draws are used.
   */
  lemma ValueByTypeProperties(ty: string, s: u32)
    ensures var (v, s') := ValueByType(ty, s);
      && LiteralFor(ty, v)
      && s' == Advance(s, DrawsFor(ty))
      && (Tag(ty) == Integer ==> v == NatToString(Output(Next(s)) % 1000))
      && (Tag(ty) == TextType ==> v == "'val" + NatToString(Output(Next(s)) % 1000) + "'")
      && (Tag(ty) == Blob ==> v == "'blob'")
      && (Tag(ty) == Other ==> v == "NULL")
  {
    var (v, s') := ValueByType(ty, s);
    var n := Output(Next(s)) % 1000;
    AdvanceOne(s);
    match Tag(ty)
    case Integer =>
      SmallInteger(n);
    case Real =>
      RealTextIsDecimal(Output(Next(s)));
    case TextType =>
      SmallInteger(n);
      assert v[4..|v| - 1] == NatToString(n);
    case Blob =>
    case Other =>
  }

  /** Total draws for a list of columns. */
  function DrawCount(cols: seq<Column>): nat
    decreases |cols|
  {
    if |cols| == 0 then 0 else DrawsFor(cols[0].ty) + DrawCount(cols[1..])
  }

  /** One literal per column, in column order, each drawn after the previous ones. */
  function Values(cols: seq<Column>, s: u32): (r: (seq<string>, u32))
    ensures |r.0| == |cols|
    decreases |cols|
  {
    if |cols| == 0 then ([], s)
    else
      var (v, s1) := ValueByType(cols[0].ty, s);
      var (rest, s2) := Values(cols[1..], s1);
      ([v] + rest, s2)
  }

  /** One step of `Values`: the first column's literal, then the rest from where it stopped. */
  lemma ValuesCons(cols: seq<Column>, i: nat, s: u32)
    requires i < |cols|
    ensures var (v, s1) := ValueByType(cols[i].ty, s);
      Values(cols[i..], s) == ([v] + Values(cols[i + 1..], s1).0, Values(cols[i + 1..], s1).1)
  {
    assert cols[i..][1..] == cols[i + 1..];
  }

  /** The list of literals consumes the draws of each column in turn. */
  lemma {:induction false} ValuesDraws(cols: seq<Column>, s: u32)
    ensures Values(cols, s).1 == Advance(s, DrawCount(cols))
    decreases |cols|
  {
    if |cols| > 0 {
      var (v, s1) := ValueByType(cols[0].ty, s);
      ValueByTypeProperties(cols[0].ty, s);
      ValuesDraws(cols[1..], s1);
      AdvanceAdd(s, DrawsFor(cols[0].ty), DrawCount(cols[1..]));
    }
  }

  /**
   * The k-th literal is `ValueByType` of the k-th column's type, drawn after
   * the draws of all earlier columns.
   */
  lemma {:induction false} ValueAt(cols: seq<Column>, s: u32, k: nat)
    requires k < |cols|
    ensures Values(cols, s).0[k] == ValueByType(cols[k].ty, Advance(s, DrawCount(cols[..k]))).0
    decreases k
  {
    var w := ValueByType(cols[0].ty, s);
    var s1 := w.1;
    assert Values(cols, s).0 == [w.0] + Values(cols[1..], s1).0;
    if k == 0 {
      assert cols[..0] == [];
    } else {
      ValueAt(cols[1..], s1, k - 1);
      var before := DrawCount(cols[1..][..k - 1]);
      assert s1 == Advance(s, DrawsFor(cols[0].ty)) by {
        ValueByTypeProperties(cols[0].ty, s);
      }
      assert DrawCount(cols[..k]) == DrawsFor(cols[0].ty) + before by {
        assert cols[..k][1..] == cols[1..][..k - 1];
      }
      AdvanceAdd(s, DrawsFor(cols[0].ty), before);
      assert cols[1..][k - 1] == cols[k];
    }
  }

  /**
   * One literal per column, in column order: the k-th is drawn after the
   * draws of the earlier columns and has the k-th column's type syntax; the
   * whole list consumes `DrawCount(cols)` draws.
   */
  lemma ValuesAt(cols: seq<Column>, s: u32)
    ensures Values(cols, s).1 == Advance(s, DrawCount(cols))
    ensures forall k :: 0 <= k < |cols| ==>
              Values(cols, s).0[k] == ValueByType(cols[k].ty, Advance(s, DrawCount(cols[..k]))).0
    ensures forall k :: 0 <= k < |cols| ==> LiteralFor(cols[k].ty, Values(cols, s).0[k])
  {
    ValuesDraws(cols, s);
    forall k | 0 <= k < |cols|
      ensures Values(cols, s).0[k] == ValueByType(cols[k].ty, Advance(s, DrawCount(cols[..k]))).0
      ensures LiteralFor(cols[k].ty, Values(cols, s).0[k])
    {
      ValueAt(cols, s, k);
      ValueByTypeProperties(cols[k].ty, Advance(s, DrawCount(cols[..k])));
    }
  }

  /** The literal-building pass, drawing from `rng` one column after another. */
  method GenerateValues(cols: seq<Column>, rng: LcgRng) returns (vals: seq<string>)
    modifies rng
    ensures (vals, rng.next) == Values(cols, old(rng.next))
  {
    ghost var s0 := rng.next;
    vals := [];
    var i := 0;
    while i < |cols|
      invariant 0 <= i <= |cols|
      invariant vals + Values(cols[i..], rng.next).0 == Values(cols, s0).0
      invariant Values(cols[i..], rng.next).1 == Values(cols, s0).1
    {
      var (v, s') := ValueByType(cols[i].ty, rng.next);
      ValuesCons(cols, i, rng.next);
      rng.next := s';
      vals := vals + [v];
      i := i + 1;
    }
    assert cols[i..] == [];
    assert Values(cols[i..], rng.next) == ([], rng.next);
    assert vals == Values(cols, s0).0;
    assert rng.next == Values(cols, s0).1;
  }
}
