/**
  The filtered property search of `getAllProperties`: from an options record
  and a row limit it assembles parameterised SQL text and the ordered list of
  bind values. The query is kept as a sequence of fragments, each of which
  renders to the exact text the builder appends.
 */
module PropertySearch {
  import opened Wrappers
  import opened Decimal
  import opened Sql

  /** The search options; a missing key (undefined or null) is `None`. */
  datatype Options = Options(
    city: Option<string>,
    ownerId: Option<int>,
    minimumPricePerNight: Option<int>,
    maximumPricePerNight: Option<int>,
    minimumRating: Option<int>)

  /** JavaScript truthiness of an optional string: present and non-empty. */
  predicate TruthyText(v: Option<string>) {
    v.Some? && v.value != ""
  }

  /** JavaScript truthiness of an optional number: present and non-zero. */
  predicate TruthyNumber(v: Option<int>) {
    v.Some? && v.value != 0
  }

  /** The row limit used when the caller passes none. */
  const DefaultLimit: int := 10

  function EffectiveLimit(limit: Option<int>): int {
    limit.GetOr(DefaultLimit)
  }

  /** The four filters that go into the WHERE clause, in the order they are tried. */
  datatype Filter = CityFilter | OwnerFilter | MinPriceFilter | MaxPriceFilter

  const AllFilters: seq<Filter> := [CityFilter, OwnerFilter, MinPriceFilter, MaxPriceFilter]

  datatype Conjunction = Where | And

  /** One piece of the query text; a `slot` is the number of its `$` placeholder. */
  datatype Fragment =
    | Base
    | Conj(conj: Conjunction)
    | Pred(filter: Filter, slot: nat)
    | GroupBy
    | Having(slot: nat)
    | OrderLimit(slot: nat)
  {
    predicate HasSlot() {
      Pred? || Having? || OrderLimit?
    }
  }

  /** The query text so far and the bind values so far. */
  datatype Builder = Builder(query: seq<Fragment>, params: seq<Param>)

  // ---------------------------------------------------------------------------
  // Rendering to SQL text

  /** The SELECT ... JOIN the query starts from, one row per source line. The
      two long lines are cut into shorter literals, which the verifier checks
      for `$` far more cheaply. */
  const BaseText: string :=
    "\n"
    + "SELECT properties.*, " + "avg(property_reviews.rating) " + "as average_rating\n"
    + "FROM properties\n"
    + "JOIN property_reviews " + "ON properties.id = property_id\n"

  /** The text of a fragment without a placeholder. */
  function FixedText(fr: Fragment): string
    requires !fr.HasSlot()
  {
    match fr
    case Base => BaseText
    case Conj(Where) => "WHERE "
    case Conj(And) => "AND "
    case GroupBy => "GROUP BY properties.id "
  }

  /** The text before the `$` of a fragment with a placeholder. */
  function SlotPrefix(fr: Fragment): string
    requires fr.HasSlot()
  {
    match fr
    case Pred(CityFilter, _) => "city LIKE "
    case Pred(OwnerFilter, _) => "properties.owner_id = "
    case Pred(MinPriceFilter, _) => "properties.cost_per_night >= "
    case Pred(MaxPriceFilter, _) => "properties.cost_per_night <= "
    case Having(_) => "HAVING avg(property_reviews.rating) >= "
    case OrderLimit(_) => "ORDER BY cost_per_night LIMIT "
  }

  /** The text after the placeholder's digits: the cast and a space, if any. */
  function SlotSuffix(fr: Fragment): string
    requires fr.HasSlot()
  {
    match fr
    case Pred(CityFilter, _) => " "
    case Pred(_, _) => "::integer "
    case Having(_) => "::real "
    case OrderLimit(_) => ""
  }

  function Render(fr: Fragment): string {
    if fr.HasSlot() then SlotPrefix(fr) + "$" + NatToString(fr.slot) + SlotSuffix(fr)
    else FixedText(fr)
  }

  function RenderQuery(q: seq<Fragment>): string {
    if |q| == 0 then "" else Render(q[0]) + RenderQuery(q[1..])
  }

  /** The placeholder numbers the fragments carry, in order. */
  function Slots(q: seq<Fragment>): seq<nat> {
    if |q| == 0 then []
    else (if q[0].HasSlot() then [q[0].slot] else []) + Slots(q[1..])
  }

  // ---------------------------------------------------------------------------
  // The builder, step by step as getAllProperties runs

  function Start(): Builder {
    Builder([Base], [])
  }

  /** The city filter always writes WHERE: it is the first one tried. */
  function AddCity(b: Builder, o: Options): (r: Builder)
    ensures |r.params| == |b.params| + (if TruthyText(o.city) then 1 else 0)
    ensures |r.query| == |b.query| + (if TruthyText(o.city) then 2 else 0)
    ensures r.query[..|b.query|] == b.query && r.params[..|b.params|] == b.params
    ensures TruthyText(o.city) ==> r.params[|r.params| - 1] == Text("%" + o.city.value + "%")
    ensures TruthyText(o.city) ==> r.query[|b.query|..] == [Conj(Where), Pred(CityFilter, |r.params|)]
  {
    if TruthyText(o.city) then
      var params := b.params + [Text("%" + o.city.value + "%")];
      Builder(b.query + [Conj(Where), Pred(CityFilter, |params|)], params)
    else b
  }

  /** A later filter writes WHERE while no value is bound yet, AND after that;
      the conjunction is chosen before the value is pushed, the placeholder after. */
  function AddWhere(b: Builder, truthy: bool, f: Filter, v: Param): (r: Builder)
    ensures |r.params| == |b.params| + (if truthy then 1 else 0)
    ensures |r.query| == |b.query| + (if truthy then 2 else 0)
    ensures r.query[..|b.query|] == b.query && r.params[..|b.params|] == b.params
    ensures truthy ==> r.params[|b.params|] == v
    ensures truthy ==> r.query[|b.query|..]
                       == [Conj(if |b.params| == 0 then Where else And), Pred(f, |r.params|)]
  {
    if truthy then
      var conj := if |b.params| > 0 then And else Where;
      var params := b.params + [v];
      Builder(b.query + [Conj(conj), Pred(f, |params|)], params)
    else b
  }

  /** The state after the first `k` of the four WHERE filters have been tried. */
  function WhereStage(o: Options, k: nat): (r: Builder)
    requires k <= |AllFilters|
    ensures |r.query| == 1 + 2 * |r.params| && |r.params| <= k
    ensures r.query[0] == Base
  {
    if k == 0 then Start()
    else
      var b := WhereStage(o, k - 1);
      match AllFilters[k - 1]
      case CityFilter => AddCity(b, o)
      case OwnerFilter =>
        AddWhere(b, TruthyNumber(o.ownerId), OwnerFilter, Num(o.ownerId.GetOr(0)))
      case MinPriceFilter =>
        AddWhere(b, TruthyNumber(o.minimumPricePerNight), MinPriceFilter,
                 Num(o.minimumPricePerNight.GetOr(0) * 100))
      case MaxPriceFilter =>
        AddWhere(b, TruthyNumber(o.maximumPricePerNight), MaxPriceFilter,
                 Num(o.maximumPricePerNight.GetOr(0) * 100))
  }

  function AddGroupBy(b: Builder): (r: Builder)
    ensures r.params == b.params
    ensures |r.query| == |b.query| + 1 && r.query[..|b.query|] == b.query
    ensures r.query[|b.query|] == GroupBy
  {
    Builder(b.query + [GroupBy], b.params)
  }

  function AddRating(b: Builder, o: Options): (r: Builder)
    ensures |r.params| == |b.params| + (if TruthyNumber(o.minimumRating) then 1 else 0)
    ensures |r.query| == |b.query| + (if TruthyNumber(o.minimumRating) then 1 else 0)
    ensures r.query[..|b.query|] == b.query && r.params[..|b.params|] == b.params
    ensures TruthyNumber(o.minimumRating)
            ==> r.params[|b.params|] == Num(o.minimumRating.value)
                && r.query[|b.query|] == Having(|r.params|)
  {
    if TruthyNumber(o.minimumRating) then
      var params := b.params + [Num(o.minimumRating.value)];
      Builder(b.query + [Having(|params|)], params)
    else b
  }

  function AddLimit(b: Builder, limit: Option<int>): (r: Builder)
    ensures |r.params| == |b.params| + 1 && |r.query| == |b.query| + 1
    ensures r.query[..|b.query|] == b.query && r.params[..|b.params|] == b.params
    ensures r.params[|b.params|] == Num(EffectiveLimit(limit))
    ensures r.query[|b.query|] == OrderLimit(|r.params|)
  {
    var params := b.params + [Num(EffectiveLimit(limit))];
    Builder(b.query + [OrderLimit(|params|)], params)
  }

  /** The query and bind values getAllProperties hands to the pool. */
  function GetAllPropertiesQuery(o: Options, limit: Option<int>): (r: Builder)
    ensures |r.query| > 0 && r.query[0] == Base
    ensures |r.params| > 0 && r.params[|r.params| - 1] == Num(EffectiveLimit(limit))
    ensures r.query[|r.query| - 1] == OrderLimit(|r.params|)
  {
    AddLimit(AddRating(AddGroupBy(WhereStage(o, |AllFilters|)), o), limit)
  }

  /** The SQL text of the query. */
  function GetAllPropertiesText(o: Options, limit: Option<int>): string {
    RenderQuery(GetAllPropertiesQuery(o, limit).query)
  }

  // ---------------------------------------------------------------------------
  // Reference: the query described declaratively

  predicate IsSet(o: Options, f: Filter) {
    match f
    case CityFilter => TruthyText(o.city)
    case OwnerFilter => TruthyNumber(o.ownerId)
    case MinPriceFilter => TruthyNumber(o.minimumPricePerNight)
    case MaxPriceFilter => TruthyNumber(o.maximumPricePerNight)
  }

  /** What a filter binds: the city as a LIKE pattern, prices in cents, the owner as is. */
  function FilterValue(o: Options, f: Filter): Param {
    match f
    case CityFilter => Text("%" + o.city.GetOr("") + "%")
    case OwnerFilter => Num(o.ownerId.GetOr(0))
    case MinPriceFilter => Num(100 * o.minimumPricePerNight.GetOr(0))
    case MaxPriceFilter => Num(100 * o.maximumPricePerNight.GetOr(0))
  }

  /** The value a placeholder-carrying fragment is meant to bind. */
  function BoundValue(o: Options, limit: Option<int>, fr: Fragment): Param {
    match fr
    case Pred(f, _) => FilterValue(o, f)
    case Having(_) => Num(o.minimumRating.GetOr(0))
    case OrderLimit(_) => Num(EffectiveLimit(limit))
    case _ => Num(0)
  }

  /** The filters of `fs` that are set, in order. */
  function SetFilters(o: Options, fs: seq<Filter>): (r: seq<Filter>)
    ensures |r| <= |fs|
  {
    if |fs| == 0 then []
    else
      var last := fs[|fs| - 1];
      SetFilters(o, fs[..|fs| - 1]) + (if IsSet(o, last) then [last] else [])
  }

  /** The number of WHERE filters that are set. */
  function SetCount(o: Options): nat {
    (if TruthyText(o.city) then 1 else 0)
    + (if TruthyNumber(o.ownerId) then 1 else 0)
    + (if TruthyNumber(o.minimumPricePerNight) then 1 else 0)
    + (if TruthyNumber(o.maximumPricePerNight) then 1 else 0)
  }

  /** The WHERE clause over the set filters `fs`: the j-th of them is written
      as a conjunction (WHERE for the first, AND after) then its predicate on `$j+1`. */
  function WhereClause(fs: seq<Filter>): (r: seq<Fragment>)
    ensures |r| == 2 * |fs|
  {
    seq(2 * |fs|, i requires 0 <= i < 2 * |fs| =>
      if i % 2 == 0 then Conj(if i == 0 then Where else And)
      else Pred(fs[i / 2], i / 2 + 1))
  }

  function FilterValues(o: Options, fs: seq<Filter>): (r: seq<Param>)
    ensures |r| == |fs|
  {
    seq(|fs|, j requires 0 <= j < |fs| => FilterValue(o, fs[j]))
  }

  /** The state a builder should be in once the filters `fs` have been added. */
  function RefState(o: Options, fs: seq<Filter>): Builder {
    Builder([Base] + WhereClause(fs), FilterValues(o, fs))
  }

  function Reference(o: Options, limit: Option<int>): Builder {
    var fs := SetFilters(o, AllFilters);
    var rated := TruthyNumber(o.minimumRating);
    var params := FilterValues(o, fs)
      + (if rated then [Num(o.minimumRating.GetOr(0))] else [])
      + [Num(EffectiveLimit(limit))];
    Builder(Layout(fs, rated, |params|), params)
  }

  /** The clauses in order: SELECT, the WHERE clause, GROUP BY, HAVING when
      the rating is filtered, then ORDER BY ... LIMIT on placeholder `n`. */
  function Layout(fs: seq<Filter>, rated: bool, n: nat): seq<Fragment> {
    [Base] + WhereClause(fs) + [GroupBy]
    + (if rated then [Having(|fs| + 1)] else [])
    + [OrderLimit(n)]
  }

  // ---------------------------------------------------------------------------
  // The builder agrees with the reference

  lemma WhereClauseSnoc(fs: seq<Filter>, f: Filter)
    ensures WhereClause(fs + [f])
         == WhereClause(fs) + [Conj(if |fs| == 0 then Where else And), Pred(f, |fs| + 1)]
  {
    var a := WhereClause(fs + [f]);
    var b := WhereClause(fs) + [Conj(if |fs| == 0 then Where else And), Pred(f, |fs| + 1)];
    assert |a| == |b|;
    forall i | 0 <= i < |a|
      ensures a[i] == b[i]
    {
      if i < 2 * |fs| {
        assert (fs + [f])[i / 2] == fs[i / 2];
      }
    }
  }

  /** One builder step on the reference state for `fs` gives the reference
      state for `fs` extended by the filter, if it is set. */
  lemma AddWhereStep(o: Options, fs: seq<Filter>, f: Filter)
    ensures AddWhere(RefState(o, fs), IsSet(o, f), f, FilterValue(o, f))
         == RefState(o, fs + (if IsSet(o, f) then [f] else []))
  {
    if IsSet(o, f) {
      WhereClauseSnoc(fs, f);
      assert FilterValues(o, fs + [f]) == FilterValues(o, fs) + [FilterValue(o, f)];
    } else {
      assert fs + [] == fs;
    }
  }

  /** The city step writes WHERE unconditionally; that is what the general
      rule would write too, since no value is bound before it. */
  lemma CityStepIsGeneralStep(o: Options)
    ensures AddCity(Start(), o) == AddWhere(Start(), IsSet(o, CityFilter), CityFilter, FilterValue(o, CityFilter))
  {
  }

  /** Each WHERE step is the general step on its filter: the city step too,
      as it is the first. */
  lemma StageStep(o: Options, k: nat)
    requires 1 <= k <= |AllFilters|
    ensures WhereStage(o, k)
         == AddWhere(WhereStage(o, k - 1), IsSet(o, AllFilters[k - 1]), AllFilters[k - 1],
                     FilterValue(o, AllFilters[k - 1]))
  {
    if k == 1 {
      CityStepIsGeneralStep(o);
    }
  }

  /** Invariant of the WHERE stage: after the first k filters the builder holds
      exactly the WHERE clause of those set among them, and one bind value per
      set filter. */
  lemma {:induction false} WhereStageInvariant(o: Options, k: nat)
    requires k <= |AllFilters|
    ensures WhereStage(o, k) == RefState(o, SetFilters(o, AllFilters[..k]))
    ensures |WhereStage(o, k).params| == |SetFilters(o, AllFilters[..k])|
  {
    if k == 0 {
      assert WhereClause([]) == [];
      assert [Base] + [] == [Base];
    } else {
      WhereStageInvariant(o, k - 1);
      var fs := SetFilters(o, AllFilters[..k - 1]);
      var f := AllFilters[k - 1];
      assert SetFilters(o, AllFilters[..k]) == fs + (if IsSet(o, f) then [f] else []) by {
        assert AllFilters[..k][..k - 1] == AllFilters[..k - 1];
      }
      StageStep(o, k);
      AddWhereStep(o, fs, f);
    }
  }

  lemma {:induction false} BuilderMatchesReference(o: Options, limit: Option<int>)
    ensures GetAllPropertiesQuery(o, limit) == Reference(o, limit)
  {
    var fs := SetFilters(o, AllFilters);
    var rated := TruthyNumber(o.minimumRating);
    var vs := FilterValues(o, fs);
    var b := WhereStage(o, |AllFilters|);
    assert b == RefState(o, fs) by {
      WhereStageInvariant(o, |AllFilters|);
      assert AllFilters[..|AllFilters|] == AllFilters;
    }
    var g := AddGroupBy(b);
    assert g == Builder([Base] + WhereClause(fs) + [GroupBy], vs);
    var h := AddRating(g, o);
    assert h == Builder([Base] + WhereClause(fs) + [GroupBy]
                        + (if rated then [Having(|fs| + 1)] else []),
                        vs + (if rated then [Num(o.minimumRating.GetOr(0))] else []));
  }

  // ---------------------------------------------------------------------------
  // Properties of the reference

  /** Position of a filter in the fixed order the builder tries them. */
  function Rank(f: Filter): nat {
    match f
    case CityFilter => 0
    case OwnerFilter => 1
    case MinPriceFilter => 2
    case MaxPriceFilter => 3
  }

  /** Filtering keeps a strictly rank-ordered list of filters rank-ordered,
      and keeps a filter exactly when it is listed and set. */
  lemma {:induction false} SetFiltersSorted(o: Options, fs: seq<Filter>)
    requires forall i, j :: 0 <= i < j < |fs| ==> Rank(fs[i]) < Rank(fs[j])
    ensures forall f :: f in SetFilters(o, fs) <==> f in fs && IsSet(o, f)
    ensures forall i, j :: 0 <= i < j < |SetFilters(o, fs)|
              ==> Rank(SetFilters(o, fs)[i]) < Rank(SetFilters(o, fs)[j])
  {
    if |fs| > 0 {
      var init := fs[..|fs| - 1];
      var last := fs[|fs| - 1];
      SetFiltersSorted(o, init);
      assert fs == init + [last];
      assert forall f :: f in init ==> Rank(f) < Rank(last);
    }
  }

  /** The set filters are exactly the truthy ones, counted by SetCount,
      each once and in the fixed order. */
  lemma SetFiltersOfAll(o: Options)
    ensures |SetFilters(o, AllFilters)| == SetCount(o)
    ensures forall f :: f in SetFilters(o, AllFilters) <==> IsSet(o, f)
    ensures forall i, j :: 0 <= i < j < |SetFilters(o, AllFilters)|
              ==> Rank(SetFilters(o, AllFilters)[i]) < Rank(SetFilters(o, AllFilters)[j])
  {
    var a := AllFilters;
    assert a[..1][..0] == [];
    assert a[..2][..1] == a[..1];
    assert a[..3][..2] == a[..2];
    assert a[..4][..3] == a[..3] && a[..4] == a;
    assert |SetFilters(o, a[..1])| == (if IsSet(o, CityFilter) then 1 else 0);
    assert |SetFilters(o, a[..2])| == |SetFilters(o, a[..1])| + (if IsSet(o, OwnerFilter) then 1 else 0);
    assert |SetFilters(o, a[..3])| == |SetFilters(o, a[..2])| + (if IsSet(o, MinPriceFilter) then 1 else 0);
    assert |SetFilters(o, a)| == |SetFilters(o, a[..3])| + (if IsSet(o, MaxPriceFilter) then 1 else 0);
    SetFiltersSorted(o, a);
    forall f: Filter
      ensures f in a
    {
      assert a[Rank(f)] == f;
    }
  }

  lemma {:induction false} SlotsAppend(a: seq<Fragment>, b: seq<Fragment>)
    ensures Slots(a + b) == Slots(a) + Slots(b)
  {
    if |a| == 0 {
      assert a + b == b;
    } else {
      var ab := a + b;
      var head := if a[0].HasSlot() then [a[0].slot] else [];
      assert ab[0] == a[0];
      assert ab[1..] == a[1..] + b;
      assert Slots(ab) == head + Slots(a[1..] + b);
      assert Slots(a) == head + Slots(a[1..]);
      SlotsAppend(a[1..], b);
    }
  }

  /** The WHERE clause over n filters carries placeholders 1..n, in order. */
  lemma {:induction false} WhereClauseSlots(fs: seq<Filter>)
    ensures Slots(WhereClause(fs)) == Iota(|fs|)
  {
    if |fs| > 0 {
      var init := fs[..|fs| - 1];
      var f := fs[|fs| - 1];
      assert fs == init + [f];
      WhereClauseSnoc(init, f);
      WhereClauseSlots(init);
      var tail := [Conj(if |init| == 0 then Where else And), Pred(f, |init| + 1)];
      SlotsAppend(WhereClause(init), tail);
      assert tail[1..] == [Pred(f, |init| + 1)];
      assert Slots([Pred(f, |init| + 1)]) == [|init| + 1] by {
        assert [Pred(f, |init| + 1)][1..] == [];
      }
      assert Slots(tail) == [|init| + 1];
      IotaSnoc(|init|);
    }
  }

  /** WHERE occurs once in a non-empty WHERE clause and never in an empty one;
      every other conjunction is AND. */
  lemma {:induction false} WhereClauseConjunctions(fs: seq<Filter>)
    ensures multiset(WhereClause(fs))[Conj(Where)] == (if |fs| > 0 then 1 else 0)
    ensures multiset(WhereClause(fs))[Conj(And)] == (if |fs| > 0 then |fs| - 1 else 0)
  {
    if |fs| > 0 {
      var init := fs[..|fs| - 1];
      var f := fs[|fs| - 1];
      assert fs == init + [f];
      WhereClauseSnoc(init, f);
      WhereClauseConjunctions(init);
    }
  }

  /** The fragments after the WHERE clause. */
  function LayoutTail(fs: seq<Filter>, rated: bool, n: nat): seq<Fragment> {
    [GroupBy] + (if rated then [Having(|fs| + 1)] else []) + [OrderLimit(n)]
  }

  lemma LayoutSplit(fs: seq<Filter>, rated: bool, n: nat)
    ensures Layout(fs, rated, n) == [Base] + WhereClause(fs) + LayoutTail(fs, rated, n)
  {
  }

  lemma TailSlots(fs: seq<Filter>, rated: bool, n: nat)
    ensures Slots(LayoutTail(fs, rated, n)) == (if rated then [|fs| + 1, n] else [n])
  {
    var t := LayoutTail(fs, rated, n);
    if rated {
      assert t == [GroupBy, Having(|fs| + 1), OrderLimit(n)];
      assert t[1..] == [Having(|fs| + 1), OrderLimit(n)];
      assert t[1..][1..] == [OrderLimit(n)];
      assert t[1..][1..][1..] == [];
      assert Slots(t[1..][1..]) == [n] + Slots([]);
      assert Slots(t[1..]) == [|fs| + 1] + Slots(t[1..][1..]);
    } else {
      assert t == [GroupBy, OrderLimit(n)];
      assert t[1..] == [OrderLimit(n)];
      assert t[1..][1..] == [];
      assert Slots(t[1..]) == [n] + Slots([]);
    }
  }

  lemma LayoutSlots(fs: seq<Filter>, rated: bool)
    ensures var n := |fs| + (if rated then 1 else 0) + 1;
      Slots(Layout(fs, rated, n)) == Iota(n)
  {
    var n := |fs| + (if rated then 1 else 0) + 1;
    var w := WhereClause(fs);
    var t := LayoutTail(fs, rated, n);
    LayoutSplit(fs, rated, n);
    SlotsAppend([Base], w);
    SlotsAppend([Base] + w, t);
    assert Slots([Base]) == [];
    WhereClauseSlots(fs);
    TailSlots(fs, rated, n);
    IotaSnoc(|fs|);
    assert Slots([Base] + w) == Iota(|fs|);
    if rated {
      IotaSnoc(|fs| + 1);
      assert Iota(n) == Iota(|fs|) + [|fs| + 1, n];
    } else {
      assert Iota(n) == Iota(|fs|) + [n];
    }
  }

  lemma ReferenceBindings(o: Options, limit: Option<int>)
    ensures forall i :: 0 <= i < |Reference(o, limit).query| && Reference(o, limit).query[i].HasSlot()
              ==> 1 <= Reference(o, limit).query[i].slot <= |Reference(o, limit).params|
                  && Reference(o, limit).params[Reference(o, limit).query[i].slot - 1]
                     == BoundValue(o, limit, Reference(o, limit).query[i])
  {
    var fs := SetFilters(o, AllFilters);
    var r := Reference(o, limit);
    var w := WhereClause(fs);
    forall i | 0 <= i < |r.query| && r.query[i].HasSlot()
      ensures 1 <= r.query[i].slot <= |r.params|
      ensures r.params[r.query[i].slot - 1] == BoundValue(o, limit, r.query[i])
    {
      if 1 <= i <= 2 * |fs| {
        assert r.query[i] == w[i - 1];
        var j := (i - 1) / 2;
        assert r.params[j] == FilterValue(o, fs[j]);
      }
    }
  }

  lemma LayoutParts(fs: seq<Filter>, rated: bool, n: nat)
    ensures var q := Layout(fs, rated, n);
      && |q| == 2 * |fs| + (if rated then 4 else 3)
      && q[0] == Base
      && (forall i :: 1 <= i <= 2 * |fs| ==> q[i] == WhereClause(fs)[i - 1])
      && q[2 * |fs| + 1] == GroupBy
      && (rated ==> q[2 * |fs| + 2] == Having(|fs| + 1))
      && q[|q| - 1] == OrderLimit(n)
      && multiset(q) == multiset{Base} + multiset(WhereClause(fs)) + multiset{GroupBy}
                        + (if rated then multiset{Having(|fs| + 1)} else multiset{})
                        + multiset{OrderLimit(n)}
  {
  }

  /** One WHERE at the front of a non-empty WHERE clause, ANDs after it. */
  lemma LayoutConjunctions(fs: seq<Filter>, rated: bool, n: nat)
    ensures var q := Layout(fs, rated, n);
      && multiset(q)[Conj(Where)] == (if |fs| > 0 then 1 else 0)
      && multiset(q)[Conj(And)] == (if |fs| > 0 then |fs| - 1 else 0)
      && (|fs| > 0 ==> q[1] == Conj(Where))
  {
    LayoutParts(fs, rated, n);
    WhereClauseConjunctions(fs);
  }

  /** The predicates are those of `fs`, in order, each after its conjunction. */
  lemma LayoutPredicates(fs: seq<Filter>, rated: bool, n: nat)
    ensures var q := Layout(fs, rated, n);
      && (forall i :: 0 <= i < |q| && q[i].Pred? ==> 1 < i && q[i - 1].Conj? && q[i].filter in fs)
      && (forall j :: 0 <= j < |fs| ==> q[2 * j + 2] == Pred(fs[j], j + 1))
  {
    var q := Layout(fs, rated, n);
    var w := WhereClause(fs);
    LayoutParts(fs, rated, n);
    forall i | 0 <= i < |q| && q[i].Pred?
      ensures 1 < i && q[i - 1].Conj? && q[i].filter in fs
    {
      assert 1 <= i <= |w|;
      assert q[i - 1] == w[i - 2];
    }
    forall j | 0 <= j < |fs|
      ensures q[2 * j + 2] == Pred(fs[j], j + 1)
    {
      assert q[2 * j + 2] == w[2 * j + 1];
    }
  }

  /** GROUP BY exactly once; HAVING present exactly when rated. */
  lemma LayoutGrouping(fs: seq<Filter>, rated: bool, n: nat)
    ensures var q := Layout(fs, rated, n);
      && multiset(q)[GroupBy] == 1
      && ((exists i :: 0 <= i < |q| && q[i].Having?) <==> rated)
  {
    var q := Layout(fs, rated, n);
    var w := WhereClause(fs);
    LayoutParts(fs, rated, n);
    assert GroupBy !in w;
  }

  /** The reference in terms of its layout: the set filters number
      SetCount, and there is one bind value per placeholder. */
  lemma ReferenceShape(o: Options, limit: Option<int>)
    ensures var fs := SetFilters(o, AllFilters);
      var rated := TruthyNumber(o.minimumRating);
      && |fs| == SetCount(o)
      && |Reference(o, limit).params| == |fs| + (if rated then 1 else 0) + 1
      && Reference(o, limit).query == Layout(fs, rated, |Reference(o, limit).params|)
  {
    SetFiltersOfAll(o);
  }

  // ---------------------------------------------------------------------------
  // Properties of the builder

  /** One bind value per truthy WHERE filter, one for a truthy minimum rating,
      and one for the limit. */
  lemma ParamCount(o: Options, limit: Option<int>)
    ensures |GetAllPropertiesQuery(o, limit).params|
         == SetCount(o) + (if TruthyNumber(o.minimumRating) then 1 else 0) + 1
  {
    BuilderMatchesReference(o, limit);
    ReferenceShape(o, limit);
  }

  /** Every placeholder `$k` names position k of the bind values: the
      placeholders are exactly 1, 2, ..., n in order of appearance, and each
      binds the value its filter, the rating or the limit calls for. */
  lemma PlaceholderIndexing(o: Options, limit: Option<int>)
    ensures var r := GetAllPropertiesQuery(o, limit);
      && Slots(r.query) == Iota(|r.params|)
      && forall i :: 0 <= i < |r.query| && r.query[i].HasSlot()
           ==> 1 <= r.query[i].slot <= |r.params|
               && r.params[r.query[i].slot - 1] == BoundValue(o, limit, r.query[i])
  {
    BuilderMatchesReference(o, limit);
    ReferenceShape(o, limit);
    LayoutSlots(SetFilters(o, AllFilters), TruthyNumber(o.minimumRating));
    ReferenceBindings(o, limit);
  }

  /** WHERE appears exactly once when some WHERE filter is truthy, right after
      the SELECT, and not at all otherwise; every further filter is joined by
      AND, and every predicate follows its conjunction. */
  lemma WhereSequencing(o: Options, limit: Option<int>)
    ensures var q := GetAllPropertiesQuery(o, limit).query;
      && multiset(q)[Conj(Where)] == (if SetCount(o) > 0 then 1 else 0)
      && multiset(q)[Conj(And)] == (if SetCount(o) > 0 then SetCount(o) - 1 else 0)
      && (SetCount(o) > 0 ==> q[1] == Conj(Where))
      && forall i :: 0 <= i < |q| && q[i].Pred? ==> 1 < i && q[i - 1].Conj?
  {
    BuilderMatchesReference(o, limit);
    ReferenceShape(o, limit);
    var fs := SetFilters(o, AllFilters);
    var n := |Reference(o, limit).params|;
    LayoutConjunctions(fs, TruthyNumber(o.minimumRating), n);
    LayoutPredicates(fs, TruthyNumber(o.minimumRating), n);
  }

  /** A filter contributes a predicate exactly when it is truthy. */
  lemma FalsyFilterAbsent(o: Options, limit: Option<int>, f: Filter)
    ensures var q := GetAllPropertiesQuery(o, limit).query;
      IsSet(o, f) <==> exists i :: 0 <= i < |q| && q[i].Pred? && q[i].filter == f
  {
    BuilderMatchesReference(o, limit);
    ReferenceShape(o, limit);
    SetFiltersOfAll(o);
    var fs := SetFilters(o, AllFilters);
    var q := Reference(o, limit).query;
    LayoutPredicates(fs, TruthyNumber(o.minimumRating), |Reference(o, limit).params|);
    if IsSet(o, f) {
      var j :| 0 <= j < |fs| && fs[j] == f;
      assert q[2 * j + 2].Pred?;
    }
  }

  /** GROUP BY always appears, once, right after the WHERE clause. */
  lemma GroupByAlways(o: Options, limit: Option<int>)
    ensures var q := GetAllPropertiesQuery(o, limit).query;
      && |q| == 2 * SetCount(o) + (if TruthyNumber(o.minimumRating) then 4 else 3)
      && q[2 * SetCount(o) + 1] == GroupBy
      && multiset(q)[GroupBy] == 1
  {
    BuilderMatchesReference(o, limit);
    ReferenceShape(o, limit);
    var fs := SetFilters(o, AllFilters);
    var n := |Reference(o, limit).params|;
    LayoutParts(fs, TruthyNumber(o.minimumRating), n);
    LayoutGrouping(fs, TruthyNumber(o.minimumRating), n);
  }

  /** HAVING appears exactly when the minimum rating is truthy, right after
      GROUP BY, on the placeholder before the limit's, which binds the rating. */
  lemma HavingIffRating(o: Options, limit: Option<int>)
    ensures var r := GetAllPropertiesQuery(o, limit);
      && |r.query| == 2 * SetCount(o) + (if TruthyNumber(o.minimumRating) then 4 else 3)
      && ((exists i :: 0 <= i < |r.query| && r.query[i].Having?) <==> TruthyNumber(o.minimumRating))
      && (TruthyNumber(o.minimumRating)
          ==> r.query[2 * SetCount(o) + 2] == Having(|r.params| - 1)
              && r.params[|r.params| - 2] == Num(o.minimumRating.value))
  {
    BuilderMatchesReference(o, limit);
    ReferenceShape(o, limit);
    var fs := SetFilters(o, AllFilters);
    var n := |Reference(o, limit).params|;
    LayoutParts(fs, TruthyNumber(o.minimumRating), n);
    LayoutGrouping(fs, TruthyNumber(o.minimumRating), n);
  }

  /** Filters in rank order keep their order among the layout's predicates. */
  predicate RankOrdered(fs: seq<Filter>) {
    forall i, j :: 0 <= i < j < |fs| ==> Rank(fs[i]) < Rank(fs[j])
  }

  lemma PredicatePosition(fs: seq<Filter>, rated: bool, n: nat, i: nat)
    requires i < |Layout(fs, rated, n)| && Layout(fs, rated, n)[i].Pred?
    ensures 1 <= i <= 2 * |fs| && i % 2 == 0
    ensures Layout(fs, rated, n)[i].filter == fs[i / 2 - 1]
  {
    var w := WhereClause(fs);
    LayoutParts(fs, rated, n);
    assert 1 <= i <= 2 * |fs|;
    assert Layout(fs, rated, n)[i] == w[i - 1];
  }

  lemma LayoutPredicateOrder(fs: seq<Filter>, rated: bool, n: nat)
    requires RankOrdered(fs)
    ensures var q := Layout(fs, rated, n);
      forall i, j :: 0 <= i < j < |q| && q[i].Pred? && q[j].Pred?
        ==> Rank(q[i].filter) < Rank(q[j].filter)
  {
    var q := Layout(fs, rated, n);
    forall i, j | 0 <= i < j < |q| && q[i].Pred? && q[j].Pred?
      ensures Rank(q[i].filter) < Rank(q[j].filter)
    {
      PredicatePosition(fs, rated, n, i);
      PredicatePosition(fs, rated, n, j);
    }
  }

  /** The predicates appear in the order the filters are tried: city, owner,
      minimum price, maximum price. */
  lemma PredicateOrder(o: Options, limit: Option<int>)
    ensures var q := GetAllPropertiesQuery(o, limit).query;
      forall i, j :: 0 <= i < j < |q| && q[i].Pred? && q[j].Pred?
        ==> Rank(q[i].filter) < Rank(q[j].filter)
  {
    BuilderMatchesReference(o, limit);
    ReferenceShape(o, limit);
    SetFiltersOfAll(o);
    LayoutPredicateOrder(SetFilters(o, AllFilters), TruthyNumber(o.minimumRating),
                         |Reference(o, limit).params|);
  }

  // ---------------------------------------------------------------------------
  // The rendered SQL text

  /** No line of the SELECT holds a `$`. */
  lemma SelectClean()
    ensures '$' !in "SELECT properties.*, " + "avg(property_reviews.rating) " + "as average_rating\n"
  {
    assert '$' !in "SELECT properties.*, ";
    assert '$' !in "avg(property_reviews.rating) ";
    assert '$' !in "as average_rating\n";
  }

  lemma JoinClean()
    ensures '$' !in "JOIN property_reviews " + "ON properties.id = property_id\n"
  {
    assert '$' !in "JOIN property_reviews ";
    assert '$' !in "ON properties.id = property_id\n";
  }

  lemma BaseTextClean()
    ensures |BaseText| > 0 && !IsDigit(BaseText[0]) && '$' !in BaseText
  {
    SelectClean();
    JoinClean();
  }

  lemma FixedTextClean(fr: Fragment)
    requires !fr.HasSlot()
    ensures |FixedText(fr)| > 0 && !IsDigit(FixedText(fr)[0]) && '$' !in FixedText(fr)
  {
    if fr == Base {
      BaseTextClean();
    }
  }

  predicate CleanTemplate(prefix: string, suffix: string) {
    && |prefix| > 0 && !IsDigit(prefix[0]) && '$' !in prefix
    && '$' !in suffix && StartsClean(suffix)
  }

  lemma PredTemplateClean(f: Filter, k: nat)
    ensures CleanTemplate(SlotPrefix(Pred(f, k)), SlotSuffix(Pred(f, k)))
  {
    match f
    case CityFilter =>
      assert '$' !in "city LIKE ";
    case OwnerFilter =>
      assert '$' !in "properties.owner_id = ";
    case MinPriceFilter =>
      assert '$' !in "properties.cost_per_night >= ";
    case MaxPriceFilter =>
      assert '$' !in "properties.cost_per_night <= ";
  }

  lemma HavingTemplateClean(k: nat)
    ensures CleanTemplate(SlotPrefix(Having(k)), SlotSuffix(Having(k)))
  {
    assert '$' !in "HAVING avg(property_reviews.rating) >= ";
  }

  lemma OrderLimitTemplateClean(k: nat)
    ensures CleanTemplate(SlotPrefix(OrderLimit(k)), SlotSuffix(OrderLimit(k)))
  {
    assert '$' !in "ORDER BY cost_per_night LIMIT ";
  }

  lemma SlotTextClean(fr: Fragment)
    requires fr.HasSlot()
    ensures CleanTemplate(SlotPrefix(fr), SlotSuffix(fr))
  {
    match fr
    case Pred(f, k) => PredTemplateClean(f, k);
    case Having(k) => HavingTemplateClean(k);
    case OrderLimit(k) => OrderLimitTemplateClean(k);
  }

  /** Each fragment's text starts with a non-digit and carries exactly the
      placeholder of its slot, if it has one. */
  lemma RenderPlaceholders(fr: Fragment)
    ensures |Render(fr)| > 0 && !IsDigit(Render(fr)[0])
    ensures Placeholders(Render(fr)) == (if fr.HasSlot() then [fr.slot] else [])
  {
    if fr.HasSlot() {
      SlotTextClean(fr);
      PlaceholderIn(SlotPrefix(fr), fr.slot, SlotSuffix(fr));
      assert Render(fr)[0] == SlotPrefix(fr)[0];
    } else {
      FixedTextClean(fr);
      PlaceholdersNoDollar(FixedText(fr));
    }
  }

  /** The `$n` placeholders of the rendered text are the fragments' slots. */
  lemma {:induction false} RenderQueryPlaceholders(q: seq<Fragment>)
    ensures Placeholders(RenderQuery(q)) == Slots(q)
    ensures StartsClean(RenderQuery(q))
  {
    if |q| > 0 {
      RenderPlaceholders(q[0]);
      RenderQueryPlaceholders(q[1..]);
      PlaceholdersAppend(Render(q[0]), RenderQuery(q[1..]));
    }
  }

  /** In the SQL text itself the placeholders read `$1`, `$2`, ..., `$n`, in
      order, where n is the number of bind values. */
  lemma TextPlaceholders(o: Options, limit: Option<int>)
    ensures Placeholders(GetAllPropertiesText(o, limit)) == Iota(|GetAllPropertiesQuery(o, limit).params|)
  {
    RenderQueryPlaceholders(GetAllPropertiesQuery(o, limit).query);
    PlaceholderIndexing(o, limit);
  }

  // ---------------------------------------------------------------------------
  // Worked examples

  /** A city filter with limit 5. */
  lemma ExampleCity()
    ensures GetAllPropertiesQuery(Options(Some("Vancouver"), None, None, None, None), Some(5))
         == Builder([Base, Conj(Where), Pred(CityFilter, 1), GroupBy, OrderLimit(2)],
                    [Text("%Vancouver%"), Num(5)])
  {
    var o := Options(Some("Vancouver"), None, None, None, None);
    BuilderMatchesReference(o, Some(5));
    SetFiltersOfAll(o);
    assert "Vancouver" != "" by { assert |"Vancouver"| == 9; }
    assert "%" + "Vancouver" + "%" == "%Vancouver%";
    assert IsSet(o, CityFilter) && SetCount(o) == 1;
    var fs := SetFilters(o, AllFilters);
    assert |fs| == 1 && CityFilter in fs;
    assert fs == [CityFilter];
    assert WhereClause([CityFilter]) == [Conj(Where), Pred(CityFilter, 1)];
  }

  /** An owner and a minimum rating, with the default limit. */
  lemma ExampleOwnerRating()
    ensures GetAllPropertiesQuery(Options(None, Some(3), None, None, Some(4)), None)
         == Builder([Base, Conj(Where), Pred(OwnerFilter, 1), GroupBy, Having(2), OrderLimit(3)],
                    [Num(3), Num(4), Num(10)])
  {
    var o := Options(None, Some(3), None, None, Some(4));
    BuilderMatchesReference(o, None);
    SetFiltersOfAll(o);
    var fs := SetFilters(o, AllFilters);
    assert |fs| == 1 && OwnerFilter in fs;
    assert fs == [OwnerFilter];
    assert WhereClause([OwnerFilter]) == [Conj(Where), Pred(OwnerFilter, 1)];
  }

  /** The text of single fragments, placeholder numbers included. */
  lemma ExampleCityText()
    ensures Render(Pred(CityFilter, 1)) == "city LIKE $1 "
  {
    assert NatToString(1) == "1";
  }

  lemma ExampleRatingText()
    ensures Render(Having(2)) == "HAVING avg(property_reviews.rating) >= $2::real "
  {
    assert NatToString(2) == "2";
  }

  /** Six bind values, the most there can be: four filters, the rating, the limit. */
  lemma ExampleLimitText()
    ensures Render(OrderLimit(6)) == "ORDER BY cost_per_night LIMIT $6"
  {
    assert NatToString(6) == "6";
  }

  /** Every option present but falsy, and no limit: no WHERE, no HAVING, and
      the default limit as the only bind value. */
  lemma ExampleAllFalsy()
    ensures GetAllPropertiesQuery(Options(Some(""), Some(0), Some(0), Some(0), Some(0)), None)
         == Builder([Base, GroupBy, OrderLimit(1)], [Num(10)])
  {
    var o := Options(Some(""), Some(0), Some(0), Some(0), Some(0));
    BuilderMatchesReference(o, None);
    SetFiltersOfAll(o);
    assert !TruthyText(o.city) && SetCount(o) == 0;
    assert SetFilters(o, AllFilters) == [];
  }
}
