/**
  Interpolation-directive resolution: the first `interpolation` item of the
  address decides whether and how numeric house-number ranges are expanded.
 */
module Directives {
  import opened Decimal
  import opened Items

  /**
    What `itype` ends up as: `None` (no expansion), an `int` step, or one of
    the strings 'odd' / 'even'.
   */
  datatype Directive = NoExpand | Step(n: nat) | Parity(even: bool)

  /** The index of the first item of kind `interpolation`, if there is one. */
  function FirstInterpolation(address: seq<Item>): (r: Option<nat>)
    ensures r.None? <==> forall j :: 0 <= j < |address| ==> address[j].kind != INTERPOLATION
    ensures r.Some? ==> r.value < |address| && address[r.value].kind == INTERPOLATION
    ensures r.Some? ==> forall j :: 0 <= j < r.value ==> address[j].kind != INTERPOLATION
  {
    if address == [] then None
    else if address[0].kind == INTERPOLATION then Some(0)
    else match FirstInterpolation(address[1..])
      case None => None
      case Some(i) => Some(i + 1)
  }

  /** How the value of the interpolation item is read. */
  function ParseToken(t: string): (d: Directive)
    ensures d.Step? <==> t == "all" || (|t| == 1 && IsDigit(t[0]))
    ensures d.Step? ==> d.n <= 9 && (d.n == 1 <==> t == "all" || t == "1")
    ensures d.Step? && t != "all" ==> AllDigits(t) && d.n == Value(t) && ToString(d.n) == t
    ensures d.Parity? <==> t == "odd" || t == "even"
    ensures d.Parity? ==> (d.even <==> t == "even")
  {
    if t == "all" then Step(1)
    else if |t| == 1 && IsDigit(t[0]) then Step(DigitValue(t[0]))
    else if t == "odd" then Parity(false)
    else if t == "even" then Parity(true)
    else NoExpand
  }

  /** The directive for one record, computed from its original address list. */
  function Resolve(expandInterpolations: bool, address: seq<Item>): (d: Directive)
    ensures !expandInterpolations ==> d == NoExpand
    ensures !d.NoExpand? ==>
      exists i :: && 0 <= i < |address| && address[i].kind == INTERPOLATION
                  && (forall j :: 0 <= j < i ==> address[j].kind != INTERPOLATION)
                  && d == ParseToken(address[i].name)
  {
    if !expandInterpolations then NoExpand
    else match FirstInterpolation(address)
      case None => NoExpand
      case Some(i) => ParseToken(address[i].name)
  }

  /**
    Only the first interpolation item is consulted: whatever follows it, and
    whatever other interpolation items there are, does not matter.
   */
  lemma {:induction false} ResolveUsesFirstOnly(expand: bool, address: seq<Item>, rest: seq<Item>)
    requires exists j :: 0 <= j < |address| && address[j].kind == INTERPOLATION
    ensures Resolve(expand, address + rest) == Resolve(expand, address)
  {
    var i := FirstInterpolation(address).value;
    assert forall j :: 0 <= j < i ==> (address + rest)[j] == address[j];
    FirstIsUnique(address + rest, i);
  }

  /** Any index that is an interpolation item with none before it is the one found. */
  lemma FirstIsUnique(address: seq<Item>, i: nat)
    requires i < |address| && address[i].kind == INTERPOLATION
    requires forall j :: 0 <= j < i ==> address[j].kind != INTERPOLATION
    ensures FirstInterpolation(address) == Some(i)
  {
  }

  /** The directive is the reading of the first interpolation item's value. */
  lemma ResolveReadsFirst(address: seq<Item>, i: nat)
    requires i < |address| && address[i].kind == INTERPOLATION
    requires forall j :: 0 <= j < i ==> address[j].kind != INTERPOLATION
    ensures Resolve(true, address) == ParseToken(address[i].name)
  {
    FirstIsUnique(address, i);
  }

  /** A record without an interpolation item, or with expansion switched off, never expands. */
  lemma NoInterpolationNoExpansion(expand: bool, address: seq<Item>)
    requires !expand || forall j :: 0 <= j < |address| ==> address[j].kind != INTERPOLATION
    ensures Resolve(expand, address) == NoExpand
  {
  }

  /** Multi-digit steps are not errors: they silently disable expansion. */
  lemma MultiDigitTokenDisables(t: string)
    requires |t| >= 2 && IsDigits(t)
    ensures ParseToken(t) == NoExpand
  {
    assert IsDigit(t[0]);
  }
}
