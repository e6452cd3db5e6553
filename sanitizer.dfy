/**
  The house-number sanitizer proper (`_HousenumberSanitizer.__call__`): it
  resolves the interpolation directive of one place record, then rebuilds the
  record's address list item by item, expanding numeric ranges, moving
  name-like house numbers to the name list and splitting house-number lists.
 */
module CleanHousenumbers {
  import opened Decimal
  import opened Items
  import opened Directives
  import opened RangeExpansion
  import opened Splitting

  /**
    The sanitizer's configuration, fixed when it is created: the
    `filter-kind` and `convert-to-name` matchers, the `delimiters` set and the
    `expand-interpolations` flag.
   */
  datatype Config = Config(
    filterKind: string -> bool,
    filterName: string -> bool,
    delimiters: set<char>,
    expandInterpolations: bool)

  /** What one original address item adds to the new address list and to the name list. */
  datatype Contribution = Contribution(toAddress: seq<Item>, toNames: seq<Item>)

  /** One house-number item per expanded number, its name the decimal string of the number. */
  function NumberItems(it: Item, hnrs: seq<nat>): seq<Item> {
    seq(|hnrs|, i requires 0 <= i < |hnrs| => it.(kind := HOUSENUMBER, name := ToString(hnrs[i])))
  }

  /** One house-number item per list entry of the value. */
  function EntryItems(it: Item, entries: seq<string>): seq<Item> {
    seq(|entries|, i requires 0 <= i < |entries| => it.(kind := HOUSENUMBER, name := entries[i]))
  }

  function Names(items: seq<Item>): seq<string> {
    seq(|items|, i requires 0 <= i < |items| => items[i].name)
  }

  /** A house-number candidate that was not replaced by an expanded range. */
  function Unexpanded(cfg: Config, it: Item): (c: Contribution)
    ensures c.toAddress == [] || c.toNames == []
    ensures |c.toNames| <= 1
  {
    if cfg.filterName(it.name) then Contribution([], [it.(kind := HOUSENUMBER)])
    else Contribution(EntryItems(it, Sanitize(it.name, cfg.delimiters)), [])
  }

  /** A house-number candidate whose value the range expansion is attempted on. */
  predicate RangeCandidate(cfg: Config, it: Item) {
    cfg.filterKind(it.kind) && IsRange(it.name)
  }

  /** One turn of the loop over the original address list. */
  function ProcessItem(cfg: Config, d: Directive, it: Item): (r: Result<Contribution>)
    ensures r.ZeroDivisionError? <==> d == Step(0) && RangeCandidate(cfg, it)
  {
    if cfg.filterKind(it.kind) then
      if !d.NoExpand? && IsRange(it.name) then
        match ExpandRange(d, it.name)
        case ZeroDivisionError => ZeroDivisionError
        case Ok(hnrs) =>
          if hnrs != [] then Ok(Contribution(NumberItems(it, hnrs), [])) else Ok(Unexpanded(cfg, it))
      else Ok(Unexpanded(cfg, it))
    else if it.kind != INTERPOLATION then Ok(Contribution([it], []))
    else Ok(Contribution([], []))
  }

  /**
    The state of the record's two lists: the rebuilt address list, the items
    appended to (or the whole of) the name list, and whether ZeroDivisionError
    escaped.
   */
  datatype Progress = Progress(address: seq<Item>, names: seq<Item>, raised: bool)

  /**
    The loop over `items`: the new address list and the items appended to the
    name list so far; once an item raises, nothing after it is processed.
   */
  function Rebuild(cfg: Config, d: Directive, items: seq<Item>): (r: Progress)
    ensures |r.names| <= |items|
    decreases |items|
  {
    if items == [] then Progress([], [], false)
    else Next(Rebuild(cfg, d, items[..|items| - 1]), ProcessItem(cfg, d, items[|items| - 1]))
  }

  /** One step of the loop: add an item's contribution, unless an earlier item raised. */
  function Next(prev: Progress, step: Result<Contribution>): Progress {
    if prev.raised then prev
    else match step
      case ZeroDivisionError => prev.(raised := true)
      case Ok(c) => Progress(prev.address + c.toAddress, prev.names + c.toNames, false)
  }

  /**
    The whole call on a record with lists `address` and `names`: the lists the
    record holds afterwards. An escaping ZeroDivisionError leaves the address
    list as it was but keeps what was already appended to the names.
   */
  function Transform(cfg: Config, address: seq<Item>, names: seq<Item>): (r: Progress)
    ensures names <= r.names && |r.names| <= |names| + |address|
    ensures r.raised ==> r.address == address
  {
    if address == [] then Progress(address, names, false)
    else
      var r := Rebuild(cfg, Resolve(cfg.expandInterpolations, address), address);
      Progress(if r.raised then address else r.address, names + r.names, r.raised)
  }

  /** The record the sanitizer is applied to (only its two item lists). */
  class ProcessInfo {
    var address: seq<Item>
    var names: seq<Item>

    constructor (address: seq<Item>, names: seq<Item>)
      ensures this.address == address && this.names == names
    {
      this.address := address;
      this.names := names;
    }
  }

  /**
    `_HousenumberSanitizer.__call__(obj)`. Returns whether ZeroDivisionError
    was raised (an interpolation step of 0 meeting a range).
   */
  method Call(cfg: Config, obj: ProcessInfo) returns (raised: bool)
    modifies obj
    ensures var t := Transform(cfg, old(obj.address), old(obj.names));
      obj.address == t.address && obj.names == t.names && raised == t.raised
    ensures old(obj.address) == [] ==> obj.address == [] && obj.names == old(obj.names)
    ensures raised ==> obj.address == old(obj.address)
    ensures old(obj.names) <= obj.names
  {
    if obj.address == [] {
      return false;
    }
    var itype := Resolve(cfg.expandInterpolations, obj.address);
    var newAddress;
    newAddress, raised := RebuildAddress(cfg, itype, obj);
    if !raised {
      obj.address := newAddress;
    }
  }

  /**
    The loop of `__call__` over the original address list: the new address
    list it builds and whether ZeroDivisionError escaped, with the names
    appended to the record along the way.
   */
  method RebuildAddress(cfg: Config, itype: Directive, obj: ProcessInfo)
    returns (newAddress: seq<Item>, raised: bool)
    modifies obj
    ensures obj.address == old(obj.address)
    ensures var r := Rebuild(cfg, itype, obj.address);
      raised == r.raised && obj.names == old(obj.names) + r.names && (!raised ==> newAddress == r.address)
  {
    var items := obj.address;
    ghost var names0 := obj.names;
    newAddress, raised := [], false;
    for i := 0 to |items|
      invariant obj.address == items
      invariant var r := Rebuild(cfg, itype, items[..i]);
        !r.raised && newAddress == r.address && obj.names == names0 + r.names
    {
      newAddress, raised := Turn(cfg, itype, items, i, obj, newAddress, names0);
      if raised {
        return;
      }
    }
    assert items[..|items|] == items;
  }

  /** Turn `i` of the loop keeps its invariant, or ends the loop with ZeroDivisionError. */
  method Turn(cfg: Config, itype: Directive, items: seq<Item>, i: nat, obj: ProcessInfo,
              newAddress: seq<Item>, ghost names0: seq<Item>)
    returns (address': seq<Item>, raised: bool)
    requires i < |items| && obj.address == items
    requires var r := Rebuild(cfg, itype, items[..i]);
      !r.raised && newAddress == r.address && obj.names == names0 + r.names
    modifies obj
    ensures obj.address == items
    ensures raised ==> var r := Rebuild(cfg, itype, items);
      r.raised && obj.names == names0 + r.names
    ensures !raised ==> var r := Rebuild(cfg, itype, items[..i + 1]);
      !r.raised && address' == r.address && obj.names == names0 + r.names
  {
    address', raised := AddItem(cfg, itype, items[i], obj, newAddress);
    if raised {
      RaisedAt(cfg, itype, items, i);
    } else {
      RebuildOkStep(cfg, itype, items, i);
    }
  }

  /**
    One turn of the loop body on `item`: extends the new address list and
    appends to the record's names as `ProcessItem` says, or reports that
    ZeroDivisionError escaped, leaving both lists alone.
   */
  method AddItem(cfg: Config, itype: Directive, item: Item, obj: ProcessInfo, newAddress: seq<Item>)
    returns (address': seq<Item>, failed: bool)
    modifies obj
    ensures obj.address == old(obj.address)
    ensures failed <==> ProcessItem(cfg, itype, item).ZeroDivisionError?
    ensures failed ==> obj.names == old(obj.names)
    ensures !failed ==> var c := ProcessItem(cfg, itype, item).value;
      address' == newAddress + c.toAddress && obj.names == old(obj.names) + c.toNames
  {
    address', failed := newAddress, false;
    ghost var step := ProcessItem(cfg, itype, item);
    if cfg.filterKind(item.kind) {
      if !itype.NoExpand? && IsRange(item.name) {
        var hnrs := ExpandRange(itype, item.name);
        if hnrs.ZeroDivisionError? {
          return newAddress, true;
        }
        if hnrs.value != [] {
          assert step == Ok(Contribution(NumberItems(item, hnrs.value), []));
          return newAddress + NumberItems(item, hnrs.value), false;
        }
      }
      assert step == Ok(Unexpanded(cfg, item));
      if cfg.filterName(item.name) {
        obj.names := obj.names + [item.(kind := HOUSENUMBER)];
      } else {
        address' := newAddress + EntryItems(item, Sanitize(item.name, cfg.delimiters));
      }
    } else if item.kind != INTERPOLATION {
      address' := newAddress + [item];
    }
  }

  /** A loop turn that does not raise appends the item's contribution to both lists. */
  lemma RebuildOkStep(cfg: Config, d: Directive, items: seq<Item>, i: nat)
    requires i < |items| && !Rebuild(cfg, d, items[..i]).raised && ProcessItem(cfg, d, items[i]).Ok?
    ensures var prev, c := Rebuild(cfg, d, items[..i]), ProcessItem(cfg, d, items[i]).value;
      Rebuild(cfg, d, items[..i + 1]) == Progress(prev.address + c.toAddress, prev.names + c.toNames, false)
  {
    RebuildStep(cfg, d, items, i);
  }

  /** When item `i` raises after a clean prefix, the whole loop raises with the prefix's lists. */
  lemma RaisedAt(cfg: Config, d: Directive, items: seq<Item>, i: nat)
    requires i < |items| && !Rebuild(cfg, d, items[..i]).raised && ProcessItem(cfg, d, items[i]).ZeroDivisionError?
    ensures Rebuild(cfg, d, items) == Rebuild(cfg, d, items[..i]).(raised := true)
  {
    RebuildStep(cfg, d, items, i);
    RaisedIsFinal(cfg, d, items[..i + 1], items[i + 1..]);
    assert items[..i + 1] + items[i + 1..] == items;
  }

  /** The loop's step: the first `i + 1` items are the first `i` and then item `i`. */
  lemma RebuildStep(cfg: Config, d: Directive, items: seq<Item>, i: nat)
    requires i < |items|
    ensures Rebuild(cfg, d, items[..i + 1]) == Next(Rebuild(cfg, d, items[..i]), ProcessItem(cfg, d, items[i]))
  {
    assert items[..i + 1][..i] == items[..i];
  }

  /** Once an item has raised, the rest of the list is never looked at. */
  lemma {:induction false} RaisedIsFinal(cfg: Config, d: Directive, a: seq<Item>, b: seq<Item>)
    requires Rebuild(cfg, d, a).raised
    ensures Rebuild(cfg, d, a + b) == Rebuild(cfg, d, a)
    decreases |b|
  {
    if b == [] {
      assert a + b == a;
    } else {
      assert (a + b)[..|a + b| - 1] == a + b[..|b| - 1];
      RaisedIsFinal(cfg, d, a, b[..|b| - 1]);
    }
  }

  /**
    Items are processed independently and in order: the lists rebuilt from
    `a + b` are those rebuilt from `a` followed by those rebuilt from `b`, and
    the whole raises exactly when one of the parts does.
   */
  lemma {:induction false} RebuildAppend(cfg: Config, d: Directive, a: seq<Item>, b: seq<Item>)
    ensures var ab, ra, rb := Rebuild(cfg, d, a + b), Rebuild(cfg, d, a), Rebuild(cfg, d, b);
      && ab.raised == (ra.raised || rb.raised)
      && (!ab.raised ==> ab.address == ra.address + rb.address && ab.names == ra.names + rb.names)
    decreases |b|
  {
    if b == [] {
      assert a + b == a;
    } else {
      var b', x := b[..|b| - 1], b[|b| - 1];
      assert (a + b)[..|a + b| - 1] == a + b';
      assert (a + b)[|a + b| - 1] == x;
      RebuildAppend(cfg, d, a, b');
      var step := ProcessItem(cfg, d, x);
      assert Rebuild(cfg, d, a + b) == Next(Rebuild(cfg, d, a + b'), step);
      assert Rebuild(cfg, d, b) == Next(Rebuild(cfg, d, b'), step);
      NextAppend(Rebuild(cfg, d, a), Rebuild(cfg, d, b'), Rebuild(cfg, d, a + b'), step);
    }
  }

  lemma NextAppend(ra: Progress, rb: Progress, ab: Progress, step: Result<Contribution>)
    requires ab.raised == (ra.raised || rb.raised)
    requires !ab.raised ==> ab.address == ra.address + rb.address && ab.names == ra.names + rb.names
    ensures var ab', rb' := Next(ab, step), Next(rb, step);
      && ab'.raised == (ra.raised || rb'.raised)
      && (!ab'.raised ==> ab'.address == ra.address + rb'.address && ab'.names == ra.names + rb'.names)
  {
  }

  /**
    Each original item's contribution stands at the original item's position:
    what the items before it produced, then what it produced, then what the
    items after it produced.
   */
  lemma ContributionAt(cfg: Config, d: Directive, items: seq<Item>, j: nat)
    requires j < |items| && !Rebuild(cfg, d, items).raised
    ensures ProcessItem(cfg, d, items[j]).Ok?
    ensures var c, r := ProcessItem(cfg, d, items[j]).value, Rebuild(cfg, d, items);
      var before, after := Rebuild(cfg, d, items[..j]), Rebuild(cfg, d, items[j + 1..]);
      && r.address == before.address + c.toAddress + after.address
      && r.names == before.names + c.toNames + after.names
  {
    SplitAround(items, j);
    Surrounded(cfg, d, items[..j], items[j], items[j + 1..]);
  }

  lemma SplitAround<T>(s: seq<T>, j: nat)
    requires j < |s|
    ensures s == s[..j] + [s[j]] + s[j + 1..]
  {
  }

  lemma Surrounded(cfg: Config, d: Directive, pre: seq<Item>, x: Item, post: seq<Item>)
    requires !Rebuild(cfg, d, pre + [x] + post).raised
    ensures ProcessItem(cfg, d, x).Ok?
    ensures var c, r := ProcessItem(cfg, d, x).value, Rebuild(cfg, d, pre + [x] + post);
      var before, after := Rebuild(cfg, d, pre), Rebuild(cfg, d, post);
      && r.address == before.address + c.toAddress + after.address
      && r.names == before.names + c.toNames + after.names
  {
    RebuildAppend(cfg, d, pre + [x], post);
    RebuildAppend(cfg, d, pre, [x]);
    RebuildSingle(cfg, d, x);
    FirstStep(ProcessItem(cfg, d, x));
  }

  lemma FirstStep(step: Result<Contribution>)
    ensures var r := Next(Progress([], [], false), step);
      !r.raised ==> step.Ok? && r.address == step.value.toAddress && r.names == step.value.toNames
  {
  }

  /** The loop over a one-item list is that item's contribution. */
  lemma RebuildSingle(cfg: Config, d: Directive, x: Item)
    ensures Rebuild(cfg, d, [x]) == Next(Progress([], [], false), ProcessItem(cfg, d, x))
  {
    assert [x][..0] == [];
  }

  /**
    The call raises exactly when the directive is a step of 0 and some
    house-number candidate's value is a numeric range.
   */
  lemma {:induction false} RaisesIff(cfg: Config, d: Directive, items: seq<Item>)
    ensures Rebuild(cfg, d, items).raised <==>
      d == Step(0) && exists j :: 0 <= j < |items| && RangeCandidate(cfg, items[j])
    decreases |items|
  {
    if items != [] {
      var p, x := items[..|items| - 1], items[|items| - 1];
      RaisesIff(cfg, d, p);
      if j :| 0 <= j < |p| && RangeCandidate(cfg, p[j]) {
        assert items[j] == p[j];
      }
      if j :| 0 <= j < |items| && RangeCandidate(cfg, items[j]) {
        if j < |p| {
          assert p[j] == items[j];
        }
      }
    }
  }

  /** An item the sanitizer leaves exactly as it is. */
  predicate Untouched(cfg: Config, it: Item) {
    !cfg.filterKind(it.kind) && it.kind != INTERPOLATION
  }

  /** An item the sanitizer produced from a house-number candidate. */
  predicate Produced(cfg: Config, it: Item) {
    it.kind == HOUSENUMBER && it.name != "" && (IsCanonical(it.name) || NoDelimiter(it.name, cfg.delimiters))
  }

  /** A house-number candidate moved to the name list. */
  predicate Reclassified(cfg: Config, it: Item) {
    cfg.filterKind(it.kind) && cfg.filterName(it.name)
  }

  /** What one item contributes: itself untouched, produced house numbers, or a name copy. */
  lemma ProcessItemShape(cfg: Config, d: Directive, it: Item)
    requires ProcessItem(cfg, d, it).Ok?
    ensures var c := ProcessItem(cfg, d, it).value;
      && (forall e :: e in c.toAddress ==> (e == it && Untouched(cfg, it)) || Produced(cfg, e))
      && (forall e :: e in c.toNames ==> e == it.(kind := HOUSENUMBER) && Reclassified(cfg, it))
  {
    if !cfg.filterKind(it.kind) {
      OtherItem(cfg, d, it);
    } else if !d.NoExpand? && IsRange(it.name) && ExpandRange(d, it.name).value != [] {
      ExpandedItem(cfg, d, it);
    } else if cfg.filterName(it.name) {
      ReclassifiedItem(cfg, d, it);
    } else {
      SplitItem(cfg, d, it);
    }
  }

  /** `e` is the house-number copy of a candidate of `items` that the name matcher accepts. */
  ghost predicate CopyOfCandidate(cfg: Config, items: seq<Item>, e: Item) {
    exists o :: o in items && Reclassified(cfg, o) && e == o.(kind := HOUSENUMBER)
  }

  /**
    Every item of the rebuilt address list is either an original item left
    untouched or a house-number item with a non-empty, delimiter-free or
    decimal value; every item appended to the names is a house-number copy of
    an original candidate whose value the name matcher accepts.
   */
  lemma {:induction false} RebuildShape(cfg: Config, d: Directive, items: seq<Item>)
    ensures var r := Rebuild(cfg, d, items);
      && (forall e :: e in r.address ==> (e in items && Untouched(cfg, e)) || Produced(cfg, e))
      && (forall e :: e in r.names ==> CopyOfCandidate(cfg, items, e))
    decreases |items|
  {
    if items != [] {
      var p, x := items[..|items| - 1], items[|items| - 1];
      RebuildShape(cfg, d, p);
      var r, prev, step := Rebuild(cfg, d, items), Rebuild(cfg, d, p), ProcessItem(cfg, d, x);
      assert r == Next(prev, step);
      assert x in items;
      assert forall o :: o in p ==> o in items;
      if step.Ok? {
        ProcessItemShape(cfg, d, x);
      }
      forall e | e in r.names
        ensures CopyOfCandidate(cfg, items, e)
      {
        if e in prev.names {
          assert CopyOfCandidate(cfg, p, e);
          var o :| o in p && Reclassified(cfg, o) && e == o.(kind := HOUSENUMBER);
          assert o in items;
        } else {
          assert e == x.(kind := HOUSENUMBER);
        }
      }
    }
  }

  /** After a call that did not raise, no address item has kind `interpolation`. */
  lemma NoInterpolationLeft(cfg: Config, address: seq<Item>, names: seq<Item>)
    requires !Transform(cfg, address, names).raised
    ensures forall e :: e in Transform(cfg, address, names).address ==> e.kind != INTERPOLATION
  {
    if address != [] {
      RebuildShape(cfg, Resolve(cfg.expandInterpolations, address), address);
    }
  }

  /** The untouched items of a list, in order. */
  function Kept(cfg: Config, s: seq<Item>): seq<Item>
    decreases |s|
  {
    if s == [] then []
    else Kept(cfg, s[..|s| - 1]) + (if Untouched(cfg, s[|s| - 1]) then [s[|s| - 1]] else [])
  }

  lemma {:induction false} KeptAppend(cfg: Config, a: seq<Item>, b: seq<Item>)
    ensures Kept(cfg, a + b) == Kept(cfg, a) + Kept(cfg, b)
    decreases |b|
  {
    if b == [] {
      assert a + b == a;
    } else {
      assert (a + b)[..|a + b| - 1] == a + b[..|b| - 1];
      KeptAppend(cfg, a, b[..|b| - 1]);
    }
  }

  lemma {:induction false} KeptNone(cfg: Config, s: seq<Item>)
    requires forall i :: 0 <= i < |s| ==> s[i].kind == HOUSENUMBER
    requires cfg.filterKind(HOUSENUMBER)
    ensures Kept(cfg, s) == []
    decreases |s|
  {
    if s != [] {
      KeptNone(cfg, s[..|s| - 1]);
    }
  }

  /**
    Items the sanitizer does not handle keep their values and their relative
    order (when house-number kind is itself a house-number kind, so that the
    produced items cannot be mistaken for untouched ones).
   */
  lemma {:induction false} UntouchedOrderKept(cfg: Config, d: Directive, items: seq<Item>)
    requires cfg.filterKind(HOUSENUMBER)
    requires !Rebuild(cfg, d, items).raised
    ensures Kept(cfg, Rebuild(cfg, d, items).address) == Kept(cfg, items)
    decreases |items|
  {
    if items != [] {
      var p, x := items[..|items| - 1], items[|items| - 1];
      UntouchedOrderKept(cfg, d, p);
      var c := ProcessItem(cfg, d, x).value;
      KeptAppend(cfg, Rebuild(cfg, d, p).address, c.toAddress);
      KeptItem(cfg, d, x);
      SplitLast(items);
      KeptAppend(cfg, p, [x]);
    }
  }

  /** One item's contribution holds exactly its untouched part. */
  lemma KeptItem(cfg: Config, d: Directive, x: Item)
    requires cfg.filterKind(HOUSENUMBER) && ProcessItem(cfg, d, x).Ok?
    ensures Kept(cfg, ProcessItem(cfg, d, x).value.toAddress) == Kept(cfg, [x])
  {
    var c := ProcessItem(cfg, d, x).value;
    assert [x][..0] == [];
    if cfg.filterKind(x.kind) {
      ProcessItemShape(cfg, d, x);
      assert forall i :: 0 <= i < |c.toAddress| ==> c.toAddress[i] in c.toAddress;
      KeptNone(cfg, c.toAddress);
    } else {
      OtherItem(cfg, d, x);
    }
  }

  lemma SplitLast<T>(s: seq<T>)
    requires s != []
    ensures s == s[..|s| - 1] + [s[|s| - 1]]
  {
  }

  /** The item was not replaced by an expanded range. */
  predicate NotExpanded(d: Directive, it: Item) {
    d.NoExpand? || !IsRange(it.name) || ExpandRange(d, it.name) == Ok([])
  }

  /**
    A candidate with a range that expands is replaced by one house-number item
    per number, each keeping the other attributes and named by the canonical
    decimal string of its number (so leading zeros vanish).
   */
  lemma ExpandedItem(cfg: Config, d: Directive, it: Item)
    requires cfg.filterKind(it.kind) && !d.NoExpand? && IsRange(it.name)
    requires ExpandRange(d, it.name).Ok? && ExpandRange(d, it.name).value != []
    ensures ProcessItem(cfg, d, it).Ok?
    ensures var hnrs, c := ExpandRange(d, it.name).value, ProcessItem(cfg, d, it).value;
      && c.toNames == []
      && |c.toAddress| == |hnrs|
      && forall i :: 0 <= i < |hnrs| ==>
           var e := c.toAddress[i];
           e == it.(kind := HOUSENUMBER, name := e.name) && IsCanonical(e.name) && Value(e.name) == hnrs[i]
  {
    var hnrs := ExpandRange(d, it.name).value;
    forall i | 0 <= i < |hnrs|
      ensures Value(ToString(hnrs[i])) == hnrs[i]
    {
      ValueOfToString(hnrs[i]);
    }
  }

  /**
    A candidate that is not expanded and whose value the name matcher accepts
    goes, unsplit and with kind `housenumber`, to the name list only.
   */
  lemma ReclassifiedItem(cfg: Config, d: Directive, it: Item)
    requires Reclassified(cfg, it) && NotExpanded(d, it)
    ensures ProcessItem(cfg, d, it) == Ok(Contribution([], [it.(kind := HOUSENUMBER)]))
  {
  }

  /**
    Any other candidate that is not expanded becomes one house-number item per
    entry of `sanitize`, in order, keeping the other attributes; the entries together
    spell the value without its delimiters, and a non-empty value without
    delimiters stays one item with the value unchanged.
   */
  lemma SplitItem(cfg: Config, d: Directive, it: Item)
    requires cfg.filterKind(it.kind) && !cfg.filterName(it.name) && NotExpanded(d, it)
    ensures ProcessItem(cfg, d, it).Ok?
    ensures var c := ProcessItem(cfg, d, it).value;
      && c.toNames == []
      && Names(c.toAddress) == Sanitize(it.name, cfg.delimiters)
      && |c.toAddress| <= |DelimitersOf(it.name, cfg.delimiters)| + 1
      && (forall i :: 0 <= i < |c.toAddress| ==>
            var e := c.toAddress[i];
            e == it.(kind := HOUSENUMBER, name := e.name) && e.name != "" && NoDelimiter(e.name, cfg.delimiters))
      && Concat(Names(c.toAddress)) == WithoutDelimiters(it.name, cfg.delimiters)
      && (it.name != "" && NoDelimiter(it.name, cfg.delimiters) ==> c.toAddress == [it.(kind := HOUSENUMBER)])
  {
    var entries := Sanitize(it.name, cfg.delimiters);
    SanitizeEntries(it.name, cfg.delimiters);
    assert Names(EntryItems(it, entries)) == entries;
    if it.name != "" && NoDelimiter(it.name, cfg.delimiters) {
      SanitizeSingle(it.name, cfg.delimiters);
    }
  }

  /** Non-candidates are kept as they are, except interpolation items, which are dropped. */
  lemma OtherItem(cfg: Config, d: Directive, it: Item)
    requires !cfg.filterKind(it.kind)
    ensures ProcessItem(cfg, d, it) == Ok(Contribution(if it.kind == INTERPOLATION then [] else [it], []))
  {
  }

  /** An address item that is already in the form the sanitizer produces. */
  predicate Regular(cfg: Config, it: Item) {
    && it.kind != INTERPOLATION
    && (cfg.filterKind(it.kind) ==>
          it.kind == HOUSENUMBER && it.name != "" && NoDelimiter(it.name, cfg.delimiters)
          && !cfg.filterName(it.name))
  }

  lemma {:induction false} RegularRebuild(cfg: Config, items: seq<Item>)
    requires forall i :: 0 <= i < |items| ==> Regular(cfg, items[i])
    ensures Rebuild(cfg, NoExpand, items) == Progress(items, [], false)
    decreases |items|
  {
    if items != [] {
      var p, x := items[..|items| - 1], items[|items| - 1];
      RegularRebuild(cfg, p);
      assert Rebuild(cfg, NoExpand, items) == Next(Rebuild(cfg, NoExpand, p), ProcessItem(cfg, NoExpand, x));
      RegularItemKept(cfg, x);
      SplitLast(items);
    }
  }

  lemma RegularItemKept(cfg: Config, x: Item)
    requires Regular(cfg, x)
    ensures ProcessItem(cfg, NoExpand, x) == Ok(Contribution([x], []))
  {
    if cfg.filterKind(x.kind) {
      SanitizeSingle(x.name, cfg.delimiters);
      assert EntryItems(x, [x.name]) == [x];
    }
  }

  /**
    A record whose address holds no interpolation item and only single,
    non-empty, delimiter-free, non-name house numbers is left unchanged.
   */
  lemma RegularInputUnchanged(cfg: Config, address: seq<Item>, names: seq<Item>)
    requires forall i :: 0 <= i < |address| ==> Regular(cfg, address[i])
    ensures Transform(cfg, address, names) == Progress(address, names, false)
  {
    NoInterpolationNoExpansion(cfg.expandInterpolations, address);
    RegularRebuild(cfg, address);
  }

  /**
    Applying the sanitizer a second time changes nothing, provided no digit is
    a delimiter and the name matcher accepts none of the produced house numbers.
   */
  lemma Idempotent(cfg: Config, address: seq<Item>, names: seq<Item>)
    requires forall c :: c in cfg.delimiters ==> !IsDigit(c)
    requires !Transform(cfg, address, names).raised
    requires forall e :: e in Transform(cfg, address, names).address && cfg.filterKind(e.kind) ==>
      !cfg.filterName(e.name)
    ensures var t := Transform(cfg, address, names);
      Transform(cfg, t.address, t.names) == t
  {
    var t := Transform(cfg, address, names);
    if address != [] {
      RebuildShape(cfg, Resolve(cfg.expandInterpolations, address), address);
      forall i | 0 <= i < |t.address|
        ensures Regular(cfg, t.address[i])
      {
        var e := t.address[i];
        assert e in t.address;
        if !(e in address && Untouched(cfg, e)) {
          assert Produced(cfg, e);
        }
      }
      RegularInputUnchanged(cfg, t.address, t.names);
    }
  }
}
