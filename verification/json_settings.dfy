/** The rule-record validator of `JSONSettings::Read`
    (src/settings/JSONSettings.cpp): which entries of the parsed
    configuration files become conditional music, with which conditions,
    and in which pool they are registered.

    Files arrive already parsed; form lookup by string
    (`GetFormFromString`) is the parameter `resolve`. */
module JSONSettings {
  import opened Common
  import opened Hooks

  /** A parsed JSON value (`Json::Value`). Numbers carry no payload: the
      validator only ever asks whether a value is a number. */
  datatype Json =
    | Null
    | Bool(b: bool)
    | Number
    | Str(s: string)
    | Arr(items: seq<Json>)
    | Obj(members: map<string, Json>)

  /** `value[key]` on an object: a missing member reads as null. The source
      tests presence with `!value`, which is true exactly for null, so an
      explicit `null` is the same as an absent member. */
  function Member(value: Json, key: string): (r: Json)
    requires value.Obj?
    ensures key !in value.members ==> r == Null
  {
    if key in value.members then value.members[key] else Null
  }

  /** The form type each `GetFormFromString<T>` call asks for. */
  datatype FormType = WorldSpaceForm | NPCForm | KeywordForm | CellForm | LocationForm | MusicTypeForm

  /** `GetFormFromString<T>`: the form a configuration string names, if any. */
  type Resolver = (FormType, string) -> Option<FormID>

  /** The configuration key of each condition block. */
  function KeyOf(kind: ConditionKind): string
  {
    match kind
    case Worldspace => "worldspaces"
    case Cell => "cells"
    case Location => "locations"
    case LocationKeyword => "locationKeywords"
    case CombatTarget => "combatTarget"
    case CombatTargetKeyword => "combatTargetKeywords"
  }

  /** The form type the strings of each condition block must resolve to. */
  function FormTypeOf(kind: ConditionKind): FormType
  {
    match kind
    case Worldspace => WorldSpaceForm
    case Cell => CellForm
    case Location => LocationForm
    case LocationKeyword => KeywordForm
    case CombatTarget => NPCForm
    case CombatTargetKeyword => KeywordForm
  }

  /** A `forms` element is a string naming a form of type `t`. */
  predicate Resolves(item: Json, t: FormType, resolve: Resolver)
  {
    item.Str? && resolve(t, item.s).Some?
  }

  /** Every element of `items` is a string naming a form of type `t`. */
  ghost predicate AllResolve(items: seq<Json>, t: FormType, resolve: Resolver)
  {
    items != [] ==> AllResolve(items[..|items| - 1], t, resolve) && Resolves(items[|items| - 1], t, resolve)
  }

  /** The forms named by `items`, in array order. */
  ghost function Resolved(items: seq<Json>, t: FormType, resolve: Resolver): (forms: seq<FormID>)
    requires AllResolve(items, t, resolve)
    ensures |forms| == |items|
  {
    if items == [] then []
    else Resolved(items[..|items| - 1], t, resolve) + [resolve(t, items[|items| - 1].s).value]
  }

  /** A condition block that does not cause its entry to be skipped: absent,
      or an object with an array `forms` of resolvable strings and a
      boolean `AND`. */
  ghost predicate BlockAccepted(block: Json, kind: ConditionKind, resolve: Resolver)
  {
    || block == Null
    || (&& block.Obj?
        && Member(block, "forms").Arr?
        && Member(block, "AND").Bool?
        && AllResolve(Member(block, "forms").items, FormTypeOf(kind), resolve))
  }

  /** The condition an accepted block contributes: none when it is absent or
      names no form, otherwise its forms in array order with its `AND`. */
  ghost function Contribution(block: Json, kind: ConditionKind, resolve: Resolver): seq<Condition>
    requires BlockAccepted(block, kind, resolve)
  {
    if block.Obj? && Member(block, "forms").items != [] then
      [Condition(kind, Resolved(Member(block, "forms").items, FormTypeOf(kind), resolve), Member(block, "AND").b)]
    else
      []
  }

  /** An entry that produces conditional music. */
  ghost predicate Accepted(entry: Json, resolve: Resolver)
  {
    && entry.Obj?
    && BlockAccepted(Member(entry, KeyOf(Worldspace)), Worldspace, resolve)
    && BlockAccepted(Member(entry, KeyOf(CombatTarget)), CombatTarget, resolve)
    && BlockAccepted(Member(entry, KeyOf(CombatTargetKeyword)), CombatTargetKeyword, resolve)
    && BlockAccepted(Member(entry, KeyOf(Cell)), Cell, resolve)
    && BlockAccepted(Member(entry, KeyOf(Location)), Location, resolve)
    && BlockAccepted(Member(entry, KeyOf(LocationKeyword)), LocationKeyword, resolve)
    && Member(entry, "isCombatMusic").Bool?
    && Member(entry, "newMusic").Str?
    && resolve(MusicTypeForm, Member(entry, "newMusic").s).Some?
  }

  /** The conditions of an accepted entry, in the fixed order worldspace,
      cell, location, location keyword, combat target, combat-target keyword. */
  ghost function ExpectedConditions(entry: Json, resolve: Resolver): seq<Condition>
    requires Accepted(entry, resolve)
  {
    Contribution(Member(entry, KeyOf(Worldspace)), Worldspace, resolve)
    + Contribution(Member(entry, KeyOf(Cell)), Cell, resolve)
    + Contribution(Member(entry, KeyOf(Location)), Location, resolve)
    + Contribution(Member(entry, KeyOf(LocationKeyword)), LocationKeyword, resolve)
    + Contribution(Member(entry, KeyOf(CombatTarget)), CombatTarget, resolve)
    + Contribution(Member(entry, KeyOf(CombatTargetKeyword)), CombatTargetKeyword, resolve)
  }

  /** A validated entry and the pool it is meant for. */
  datatype Parsed = Parsed(isCombatMusic: bool, music: ConditionalBattleMusic)

  /** What one element of `combatMusic` yields. */
  ghost function ParseEntry(entry: Json, resolve: Resolver): Option<Parsed>
  {
    if Accepted(entry, resolve) then
      Some(Parsed(Member(entry, "isCombatMusic").b,
                  ConditionalBattleMusic(MusicType(resolve(MusicTypeForm, Member(entry, "newMusic").s).value),
                                         ExpectedConditions(entry, resolve))))
    else
      None
  }

  /** What one element of `combatMusic` yields, as a list. */
  ghost function EntryYield(entry: Json, resolve: Resolver): seq<Parsed>
  {
    if ParseEntry(entry, resolve).Some? then [ParseEntry(entry, resolve).value] else []
  }

  /** The lists `f` yields for each element of `xs`, one after another. */
  ghost function Collect<A, B>(xs: seq<A>, f: A -> seq<B>): seq<B>
  {
    if xs == [] then [] else Collect(xs[..|xs| - 1], f) + f(xs[|xs| - 1])
  }

  /** The entries an array of rule records yields, in array order. */
  ghost function EntriesOf(items: seq<Json>, resolve: Resolver): seq<Parsed>
  {
    Collect(items, EntryYields(resolve))
  }

  /** `EntryYield` with the resolver fixed. */
  ghost function EntryYields(resolve: Resolver): Json -> seq<Parsed>
  {
    e => EntryYield(e, resolve)
  }

  /** The rule records of one configuration file: its `combatMusic` array,
      or none when the file is not an object or that member is not an array. */
  function RuleItems(file: Json): seq<Json>
  {
    if file.Obj? && Member(file, "combatMusic").Arr? then Member(file, "combatMusic").items else []
  }

  /** The rule records of all files, file after file. */
  ghost function AllItems(files: seq<Json>): seq<Json>
  {
    Collect(files, RuleItems)
  }

  /** The entries all files yield, in file order and then array order. */
  ghost function AllEntries(files: seq<Json>, resolve: Resolver): seq<Parsed>
  {
    EntriesOf(AllItems(files), resolve)
  }

  /** What registering `ps` adds to the combat pool (`combat`) or to the
      cleared pool (`!combat`): the entries meant for it that carry at least
      one condition. */
  ghost function Routed(ps: seq<Parsed>, combat: bool): seq<ConditionalBattleMusic>
  {
    if ps == [] then []
    else
      var last := ps[|ps| - 1];
      Routed(ps[..|ps| - 1], combat)
      + (if last.isCombatMusic == combat && last.music.conditions != [] then [last.music] else [])
  }

  /** Splitting the input splits what is collected. */
  lemma {:induction false} CollectAppend<A, B>(a: seq<A>, b: seq<A>, f: A -> seq<B>)
    ensures Collect(a + b, f) == Collect(a, f) + Collect(b, f)
    decreases |b|
  {
    if b == [] {
      assert a + b == a;
    } else {
      var b' := b[..|b| - 1];
      assert (a + b)[..|a + b| - 1] == a + b';
      CollectAppend(a, b', f);
    }
  }

  /** A non-object record yields nothing and the records after it are still
      read. */
  lemma NonObjectSkipped(items: seq<Json>, k: nat, resolve: Resolver)
    requires k < |items| && !items[k].Obj?
    ensures EntriesOf(items, resolve) == EntriesOf(items[..k], resolve) + EntriesOf(items[k + 1..], resolve)
  {
    assert EntryYields(resolve)(items[k]) == [];
    CollectSkip(items, k, EntryYields(resolve));
  }

  /** Collecting one more element of a prefix appends what it yields. */
  lemma CollectStep<A, B>(xs: seq<A>, i: nat, f: A -> seq<B>)
    requires i < |xs|
    ensures Collect(xs[..i + 1], f) == Collect(xs[..i], f) + f(xs[i])
  {
    assert xs[..i + 1][..i] == xs[..i];
  }

  /** An element for which nothing is collected can be cut out. */
  lemma CollectSkip<A, B>(xs: seq<A>, k: nat, f: A -> seq<B>)
    requires k < |xs| && f(xs[k]) == []
    ensures Collect(xs, f) == Collect(xs[..k], f) + Collect(xs[k + 1..], f)
  {
    assert xs == xs[..k] + [xs[k]] + xs[k + 1..];
    CollectAppend(xs[..k] + [xs[k]], xs[k + 1..], f);
    CollectAppend(xs[..k], [xs[k]], f);
    assert [xs[k]][..0] == [];
  }

  /** Routing distributes over concatenation. */
  lemma {:induction false} RoutedAppend(a: seq<Parsed>, b: seq<Parsed>, combat: bool)
    ensures Routed(a + b, combat) == Routed(a, combat) + Routed(b, combat)
    decreases |b|
  {
    if b == [] {
      assert a + b == a;
    } else {
      var b' := b[..|b| - 1];
      assert (a + b)[..|a + b| - 1] == a + b';
      RoutedAppend(a, b', combat);
    }
  }

  /** The position of each condition kind in an entry's condition list. */
  function Rank(kind: ConditionKind): nat
  {
    match kind
    case Worldspace => 0
    case Cell => 1
    case Location => 2
    case LocationKeyword => 3
    case CombatTarget => 4
    case CombatTargetKeyword => 5
  }

  /** The conditions `cs` hold forms, come in strictly increasing kind order
      and all rank below `bound`. */
  ghost predicate OrderedBelow(cs: seq<Condition>, bound: nat)
  {
    cs != [] ==>
      var last := cs[|cs| - 1];
      && last.forms != []
      && Rank(last.kind) < bound
      && OrderedBelow(cs[..|cs| - 1], Rank(last.kind))
  }

  /** What `OrderedBelow` says, element by element. */
  lemma {:induction false} OrderedBelowElementwise(cs: seq<Condition>, bound: nat)
    requires OrderedBelow(cs, bound)
    ensures forall i :: 0 <= i < |cs| ==> cs[i].forms != [] && Rank(cs[i].kind) < bound
    ensures forall i, j :: 0 <= i < j < |cs| ==> Rank(cs[i].kind) < Rank(cs[j].kind)
  {
    if cs != [] {
      var init, last := cs[..|cs| - 1], cs[|cs| - 1];
      OrderedBelowElementwise(init, Rank(last.kind));
      assert forall i :: 0 <= i < |init| ==> cs[i] == init[i];
    }
  }

  /** A block contributes at most one condition, of its own kind, holding
      at least one form. */
  lemma ContributionShape(block: Json, kind: ConditionKind, resolve: Resolver)
    requires BlockAccepted(block, kind, resolve)
    ensures OneOfRank(Contribution(block, kind, resolve), Rank(kind))
    ensures forall c :: c in Contribution(block, kind, resolve) ==> c.kind == kind
  {
  }

  /** Appending at most one condition of rank `r` to conditions ranked below
      `r` keeps them ordered. */
  lemma AppendRanked(cs: seq<Condition>, next: seq<Condition>, r: nat, bound: nat)
    requires OrderedBelow(cs, r) && r < bound && OneOfRank(next, r)
    ensures OrderedBelow(cs + next, bound)
  {
    if next == [] {
      assert cs + next == cs;
      OrderedBelowWeaken(cs, r, bound);
    } else {
      assert (cs + next)[..|cs|] == cs;
      assert (cs + next)[|cs|] == next[0];
    }
  }

  /** A larger bound keeps conditions ordered. */
  lemma OrderedBelowWeaken(cs: seq<Condition>, r: nat, bound: nat)
    requires OrderedBelow(cs, r) && r <= bound
    ensures OrderedBelow(cs, bound)
  {
  }

  /** At most one condition of rank `r`, holding forms. */
  ghost predicate OneOfRank(cs: seq<Condition>, r: nat)
  {
    |cs| <= 1 && forall c :: c in cs ==> Rank(c.kind) == r && c.forms != []
  }

  /** Six contributions of ranks 0 to 5, concatenated in rank order, are
      ordered. */
  lemma SixRanksOrdered(c0: seq<Condition>, c1: seq<Condition>, c2: seq<Condition>,
                        c3: seq<Condition>, c4: seq<Condition>, c5: seq<Condition>)
    requires OneOfRank(c0, 0) && OneOfRank(c1, 1) && OneOfRank(c2, 2)
    requires OneOfRank(c3, 3) && OneOfRank(c4, 4) && OneOfRank(c5, 5)
    ensures OrderedBelow(c0 + c1 + c2 + c3 + c4 + c5, 6)
  {
    AppendRanked([], c0, 0, 1);
    assert [] + c0 == c0;
    AppendRanked(c0, c1, 1, 2);
    AppendRanked(c0 + c1, c2, 2, 3);
    AppendRanked(c0 + c1 + c2, c3, 3, 4);
    AppendRanked(c0 + c1 + c2 + c3, c4, 4, 5);
    AppendRanked(c0 + c1 + c2 + c3 + c4, c5, 5, 6);
  }

  /** An accepted entry's conditions follow the fixed kind order, one per
      kind at most, and each holds at least one form. */
  lemma ConditionsInFixedOrder(entry: Json, resolve: Resolver)
    requires Accepted(entry, resolve)
    ensures var cs := ExpectedConditions(entry, resolve);
            && (forall i :: 0 <= i < |cs| ==> cs[i].forms != [])
            && (forall i, j :: 0 <= i < j < |cs| ==> Rank(cs[i].kind) < Rank(cs[j].kind))
  {
    var b0, b1, b2 := Member(entry, KeyOf(Worldspace)), Member(entry, KeyOf(Cell)), Member(entry, KeyOf(Location));
    var b3, b4 := Member(entry, KeyOf(LocationKeyword)), Member(entry, KeyOf(CombatTarget));
    var b5 := Member(entry, KeyOf(CombatTargetKeyword));
    ContributionShape(b0, Worldspace, resolve);
    ContributionShape(b1, Cell, resolve);
    ContributionShape(b2, Location, resolve);
    ContributionShape(b3, LocationKeyword, resolve);
    ContributionShape(b4, CombatTarget, resolve);
    ContributionShape(b5, CombatTargetKeyword, resolve);
    SixRanksOrdered(Contribution(b0, Worldspace, resolve), Contribution(b1, Cell, resolve),
                    Contribution(b2, Location, resolve), Contribution(b3, LocationKeyword, resolve),
                    Contribution(b4, CombatTarget, resolve), Contribution(b5, CombatTargetKeyword, resolve));
    OrderedBelowElementwise(ExpectedConditions(entry, resolve), 6);
  }

  /** `AllResolve` and `Resolved` element by element: every element names a
      form, and the forms are those elements' forms in array order. */
  lemma {:induction false} ResolvedElementwise(items: seq<Json>, t: FormType, resolve: Resolver)
    ensures AllResolve(items, t, resolve) <==> forall i :: 0 <= i < |items| ==> Resolves(items[i], t, resolve)
    ensures AllResolve(items, t, resolve) ==>
              forall i :: 0 <= i < |items| ==> Resolved(items, t, resolve)[i] == resolve(t, items[i].s).value
  {
    if items != [] {
      var init := items[..|items| - 1];
      ResolvedElementwise(init, t, resolve);
      assert forall i :: 0 <= i < |init| ==> items[i] == init[i];
    }
  }

  /** A block that is present but not an object, or an object without an
      array `forms` or a boolean `AND`, makes the whole entry yield nothing. */
  lemma BadBlockSkipsEntry(entry: Json, kind: ConditionKind, resolve: Resolver)
    requires entry.Obj?
    requires var block := Member(entry, KeyOf(kind));
             block != Null && (!block.Obj? || !Member(block, "forms").Arr? || !Member(block, "AND").Bool?)
    ensures EntryYield(entry, resolve) == []
  {
  }

  /** One element of a block's `forms` that is not a string or names no form
      of the block's type makes the whole entry yield nothing. */
  lemma UnresolvedFormSkipsEntry(entry: Json, kind: ConditionKind, resolve: Resolver, k: nat)
    requires entry.Obj?
    requires var block := Member(entry, KeyOf(kind));
             && block.Obj? && Member(block, "forms").Arr?
             && k < |Member(block, "forms").items|
             && !Resolves(Member(block, "forms").items[k], FormTypeOf(kind), resolve)
    ensures EntryYield(entry, resolve) == []
  {
    var items := Member(Member(entry, KeyOf(kind)), "forms").items;
    ResolvedElementwise(items, FormTypeOf(kind), resolve);
  }

  /** What a block contributes: a condition exactly when it is an object whose
      `forms` is not empty, holding the block's forms in array order and the
      block's `AND`. */
  lemma ContributionContents(block: Json, kind: ConditionKind, resolve: Resolver)
    requires BlockAccepted(block, kind, resolve)
    ensures var cs := Contribution(block, kind, resolve);
            && (cs != [] <==> block.Obj? && Member(block, "forms").items != [])
            && forall c :: c in cs ==>
                 && c.kind == kind
                 && c.AND == Member(block, "AND").b
                 && |c.forms| == |Member(block, "forms").items|
                 && forall i :: 0 <= i < |c.forms| ==>
                      Resolves(Member(block, "forms").items[i], FormTypeOf(kind), resolve) &&
                      c.forms[i] == resolve(FormTypeOf(kind), Member(block, "forms").items[i].s).value
  {
    if block.Obj? {
      ResolvedElementwise(Member(block, "forms").items, FormTypeOf(kind), resolve);
    }
  }

  /** The conditions of an accepted entry that are of one kind are exactly
      what that kind's block contributes. */
  lemma ConditionsOfKind(entry: Json, resolve: Resolver, kind: ConditionKind)
    requires Accepted(entry, resolve)
    ensures forall c :: c in ExpectedConditions(entry, resolve) && c.kind == kind <==>
                        c in Contribution(Member(entry, KeyOf(kind)), kind, resolve)
  {
    ContributionShape(Member(entry, KeyOf(Worldspace)), Worldspace, resolve);
    ContributionShape(Member(entry, KeyOf(Cell)), Cell, resolve);
    ContributionShape(Member(entry, KeyOf(Location)), Location, resolve);
    ContributionShape(Member(entry, KeyOf(LocationKeyword)), LocationKeyword, resolve);
    ContributionShape(Member(entry, KeyOf(CombatTarget)), CombatTarget, resolve);
    ContributionShape(Member(entry, KeyOf(CombatTargetKeyword)), CombatTargetKeyword, resolve);
  }

  /** A produced entry's pool flag is the boolean `isCombatMusic`, its track
      is the form `newMusic` names, and its conditions of each kind are what
      that kind's block contributes. */
  lemma ProducedEntry(entry: Json, resolve: Resolver)
    requires ParseEntry(entry, resolve).Some?
    ensures var p := ParseEntry(entry, resolve).value;
            && Member(entry, "isCombatMusic") == Bool(p.isCombatMusic)
            && Member(entry, "newMusic").Str?
            && resolve(MusicTypeForm, Member(entry, "newMusic").s) == Some(p.music.music.formID)
            && p.music.conditions == ExpectedConditions(entry, resolve)
  {
  }

  /** What registering routes to a pool is exactly the tracks of the entries
      meant for it that carry a condition. */
  lemma {:induction false} RoutedMembers(ps: seq<Parsed>, combat: bool)
    ensures forall m :: m in Routed(ps, combat) <==>
              exists p :: p in ps && p.isCombatMusic == combat && p.music.conditions != [] && p.music == m
  {
    if ps != [] {
      var init, last := ps[..|ps| - 1], ps[|ps| - 1];
      RoutedMembers(init, combat);
      assert ps == init + [last];
    }
  }

  /** A condition block as the source scans it: `BadSetup` when the entry must
      be skipped for the block's shape, otherwise the forms collected, the
      `AND` flag last assigned and whether an element was skipped. */
  datatype BlockScan = BadSetup | Scanned(forms: seq<FormID>, AND: bool, errorOccured: bool)
  {
    predicate Failed()
    {
      BadSetup? || errorOccured
    }

    /** The condition a successful scan adds to the entry: none when the block
        named no form. */
    function Condition(kind: ConditionKind): seq<Hooks.Condition>
      requires !Failed()
    {
      if forms != [] then [Hooks.Condition(kind, forms, AND)] else []
    }
  }

  /** The scan of one condition block. Within an entry `errorOccured` is
      false when each block starts, since the entry is abandoned as soon as
      it is set, so it is local to the block here. A bad element does not
      stop the scan of the elements after it. */
  method ScanBlock(block: Json, kind: ConditionKind, resolve: Resolver) returns (scan: BlockScan)
    ensures scan.Failed() <==> !BlockAccepted(block, kind, resolve)
    ensures !scan.Failed() ==>
              Contribution(block, kind, resolve) == scan.Condition(kind)
  {
    if block.Obj? {
      var conditionArray := Member(block, "forms");
      var conditionAND := Member(block, "AND");
      if !conditionArray.Arr? || !conditionAND.Bool? {
        return BadSetup;
      }
      var items := conditionArray.items;
      var t := FormTypeOf(kind);
      var forms: seq<FormID> := [];
      var isAND := false;
      var errorOccured := false;
      for i := 0 to |items|
        invariant errorOccured <==> !AllResolve(items[..i], t, resolve)
        invariant !errorOccured ==> forms == Resolved(items[..i], t, resolve)
        invariant !errorOccured ==> isAND == (i > 0 && conditionAND.b)
      {
        var item := items[i];
        if !item.Str? {
          errorOccured := true;
          continue;
        }
        var found := resolve(t, item.s);
        if found.None? {
          errorOccured := true;
          continue;
        }
        forms := forms + [found.value];
        isAND := conditionAND.b;
        assert items[..i + 1] == items[..i] + [item];
      }
      assert items[..|items|] == items;
      return Scanned(forms, isAND, errorOccured);
    } else if block != Null {
      return BadSetup;
    }
    return Scanned([], false, false);
  }

  /** The conditions of an entry whose blocks all scanned cleanly, pushed in
      the fixed order worldspace, cell, location, location keyword, combat
      target, combat target keyword. */
  method BuildConditions(worldspaces: BlockScan, cells: BlockScan, locations: BlockScan,
                         locationKeywords: BlockScan, combatTarget: BlockScan, targetKeywords: BlockScan)
    returns (conditions: seq<Condition>)
    requires !worldspaces.Failed() && !cells.Failed() && !locations.Failed()
    requires !locationKeywords.Failed() && !combatTarget.Failed() && !targetKeywords.Failed()
    ensures conditions == worldspaces.Condition(Worldspace) + cells.Condition(Cell) + locations.Condition(Location)
                          + locationKeywords.Condition(LocationKeyword) + combatTarget.Condition(CombatTarget)
                          + targetKeywords.Condition(CombatTargetKeyword)
  {
    conditions := AddCondition([], worldspaces, Worldspace);
    conditions := AddCondition(conditions, cells, Cell);
    conditions := AddCondition(conditions, locations, Location);
    conditions := AddCondition(conditions, locationKeywords, LocationKeyword);
    conditions := AddCondition(conditions, combatTarget, CombatTarget);
    conditions := AddCondition(conditions, targetKeywords, CombatTargetKeyword);
  }

  /** Pushes the block's condition when it named at least one form. */
  method AddCondition(conditions: seq<Condition>, scan: BlockScan, kind: ConditionKind) returns (conditions': seq<Condition>)
    requires !scan.Failed()
    ensures conditions' == conditions + scan.Condition(kind)
  {
    conditions' := conditions;
    if scan.forms != [] {
      conditions' := conditions' + [Condition(kind, scan.forms, scan.AND)];
    }
  }

  /** The validation and construction of one object element of
      `combatMusic`: the blocks are checked in the source's order, then the
      pool flag and the track, then the conditions are assembled. */
  method ReadEntry(entry: Json, resolve: Resolver) returns (parsed: Option<Parsed>)
    requires entry.Obj?
    ensures parsed == ParseEntry(entry, resolve)
  {
    var worldspaces := ScanBlock(Member(entry, KeyOf(Worldspace)), Worldspace, resolve);
    if worldspaces.Failed() {
      return None;
    }
    var combatTarget := ScanBlock(Member(entry, KeyOf(CombatTarget)), CombatTarget, resolve);
    if combatTarget.Failed() {
      return None;
    }
    var targetKeywords := ScanBlock(Member(entry, KeyOf(CombatTargetKeyword)), CombatTargetKeyword, resolve);
    if targetKeywords.Failed() {
      return None;
    }
    var cells := ScanBlock(Member(entry, KeyOf(Cell)), Cell, resolve);
    if cells.Failed() {
      return None;
    }
    var locations := ScanBlock(Member(entry, KeyOf(Location)), Location, resolve);
    if locations.Failed() {
      return None;
    }
    var locationKeywords := ScanBlock(Member(entry, KeyOf(LocationKeyword)), LocationKeyword, resolve);
    if locationKeywords.Failed() {
      return None;
    }

    var isCombatMusic := Member(entry, "isCombatMusic");
    if !isCombatMusic.Bool? {
      return None;
    }
    var newMusic := Member(entry, "newMusic");
    if !newMusic.Str? {
      return None;
    }
    var musicForm := resolve(MusicTypeForm, newMusic.s);
    if musicForm.None? {
      return None;
    }

    assert Accepted(entry, resolve);
    var conditions := BuildConditions(worldspaces, cells, locations, locationKeywords, combatTarget, targetKeywords);
    return Some(Parsed(isCombatMusic.b, ConditionalBattleMusic(MusicType(musicForm.value), conditions)));
  }

  /** One iteration over the `combatMusic` array: a non-object element is
      skipped, an accepted entry is registered in the pool its
      `isCombatMusic` names. */
  method RegisterEntry(entry: Json, resolve: Resolver, calls: CombatMusicCalls)
    requires calls.Valid()
    modifies calls`conditionalMusic, calls`conditionalClearedMusic
    ensures calls.Valid()
    ensures calls.conditionalMusic == old(calls.conditionalMusic) + Routed(EntryYield(entry, resolve), true)
    ensures calls.conditionalClearedMusic == old(calls.conditionalClearedMusic) + Routed(EntryYield(entry, resolve), false)
  {
    if !entry.Obj? {
      return;
    }
    var parsed := ReadEntry(entry, resolve);
    if parsed.None? {
      return;
    }
    assert EntryYield(entry, resolve) == [parsed.value];
    assert [parsed.value][..0] == [];
    if parsed.value.isCombatMusic {
      calls.PushNewCombatMusic(parsed.value.music);
    } else {
      calls.PushNewClearedMusic(parsed.value.music);
    }
  }

  /** The loop over the `combatMusic` array of one file. */
  method ReadCombatMusic(items: seq<Json>, resolve: Resolver, calls: CombatMusicCalls)
    requires calls.Valid()
    modifies calls`conditionalMusic, calls`conditionalClearedMusic
    ensures calls.Valid()
    ensures calls.conditionalMusic == old(calls.conditionalMusic) + Routed(EntriesOf(items, resolve), true)
    ensures calls.conditionalClearedMusic == old(calls.conditionalClearedMusic) + Routed(EntriesOf(items, resolve), false)
  {
    for ei := 0 to |items|
      invariant calls.Valid()
      invariant calls.conditionalMusic == old(calls.conditionalMusic) + Routed(EntriesOf(items[..ei], resolve), true)
      invariant calls.conditionalClearedMusic ==
                  old(calls.conditionalClearedMusic) + Routed(EntriesOf(items[..ei], resolve), false)
    {
      ghost var combat, cleared := calls.conditionalMusic, calls.conditionalClearedMusic;
      RegisterEntry(items[ei], resolve, calls);
      ghost var done, next := EntriesOf(items[..ei], resolve), EntryYield(items[ei], resolve);
      PoolStep(old(calls.conditionalMusic), combat, calls.conditionalMusic, done, next, true);
      PoolStep(old(calls.conditionalClearedMusic), cleared, calls.conditionalClearedMusic, done, next, false);
      CollectStep(items, ei, EntryYields(resolve));
    }
    assert items[..|items|] == items;
  }

  /** Reading one more file appends the entries its rule records yield. */
  lemma AllEntriesStep(files: seq<Json>, i: nat, resolve: Resolver)
    requires i < |files|
    ensures AllEntries(files[..i + 1], resolve) == AllEntries(files[..i], resolve) + EntriesOf(RuleItems(files[i]), resolve)
  {
    CollectStep(files, i, RuleItems);
    CollectAppend(AllItems(files[..i]), RuleItems(files[i]), EntryYields(resolve));
  }

  /** A pool that held `base` plus what `done` routes to it, and then
      received what `next` routes to it, holds `base` plus what `done + next`
      routes to it. */
  lemma PoolStep(base: seq<ConditionalBattleMusic>, before: seq<ConditionalBattleMusic>, after: seq<ConditionalBattleMusic>,
                 done: seq<Parsed>, next: seq<Parsed>, combat: bool)
    requires before == base + Routed(done, combat)
    requires after == before + Routed(next, combat)
    ensures after == base + Routed(done + next, combat)
  {
    RoutedAppend(done, next, combat);
  }

  /** One configuration file: its `combatMusic` array is read when the file
      is an object and the member is an array; otherwise nothing happens. */
  method ReadFile(file: Json, resolve: Resolver, calls: CombatMusicCalls)
    requires calls.Valid()
    modifies calls`conditionalMusic, calls`conditionalClearedMusic
    ensures calls.Valid()
    ensures calls.conditionalMusic == old(calls.conditionalMusic) + Routed(EntriesOf(RuleItems(file), resolve), true)
    ensures calls.conditionalClearedMusic ==
              old(calls.conditionalClearedMusic) + Routed(EntriesOf(RuleItems(file), resolve), false)
    // a file that is not an object, or has no `combatMusic` array, changes neither pool
    ensures !(file.Obj? && Member(file, "combatMusic").Arr?) ==>
              calls.conditionalMusic == old(calls.conditionalMusic) &&
              calls.conditionalClearedMusic == old(calls.conditionalClearedMusic)
  {
    if !file.Obj? {
      return;
    }
    var combatMusic := Member(file, "combatMusic");
    if !combatMusic.Arr? {
      return;
    }
    ReadCombatMusic(combatMusic.items, resolve, calls);
  }

  /** `JSONSettings::Read` after the files are found and parsed: every
      accepted entry is registered, combat entries in the combat pool and
      the others in the cleared pool, in file and array order; the pools'
      earlier contents are kept and the stored track is not touched. */
  method Read(files: seq<Json>, resolve: Resolver, calls: CombatMusicCalls)
    requires calls.Valid()
    modifies calls`conditionalMusic, calls`conditionalClearedMusic
    ensures calls.Valid()
    ensures calls.conditionalMusic == old(calls.conditionalMusic) + Routed(AllEntries(files, resolve), true)
    ensures calls.conditionalClearedMusic == old(calls.conditionalClearedMusic) + Routed(AllEntries(files, resolve), false)
  {
    for fi := 0 to |files|
      invariant calls.Valid()
      invariant calls.conditionalMusic == old(calls.conditionalMusic) + Routed(AllEntries(files[..fi], resolve), true)
      invariant calls.conditionalClearedMusic ==
                  old(calls.conditionalClearedMusic) + Routed(AllEntries(files[..fi], resolve), false)
    {
      ghost var combat, cleared := calls.conditionalMusic, calls.conditionalClearedMusic;
      ReadFile(files[fi], resolve, calls);
      ghost var done, next := AllEntries(files[..fi], resolve), EntriesOf(RuleItems(files[fi]), resolve);
      PoolStep(old(calls.conditionalMusic), combat, calls.conditionalMusic, done, next, true);
      PoolStep(old(calls.conditionalClearedMusic), cleared, calls.conditionalClearedMusic, done, next, false);
      AllEntriesStep(files, fi, resolve);
    }
    assert files[..|files|] == files;
  }
}
