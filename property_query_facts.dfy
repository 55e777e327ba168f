/**
 * What the query `getAllProperties` builds promises: which clauses appear and in
 * which order, which value each placeholder is bound to, and that the SQL text
 * never contains a caller's value.
 */
module PropertyQueryFacts {
  import opened SqlText
  import opened PropertyQuery

  /** Owner, then the two price bounds, then the city, then the limit; each only when its filter is truthy. */
  lemma ClauseColumns(f: Filters, limit: Param)
    ensures Columns(Slots(f, limit))
         == (if HasOwner(f) then [OwnerId] else [])
          + (if HasPriceRange(f) then [MinCost, MaxCost] else [])
          + (if HasCity(f) then [City] else [])
          + [Limit]
  {
    var a, b, c := OwnerSlots(f), PriceSlots(f), CitySlots(f);
    assert Columns(a + b) == Columns(a) + Columns(b);
    assert Columns(a + b + c) == Columns(a + b) + Columns(c);
    assert Columns(a + b + c + [Slot(Limit, limit)]) == Columns(a + b + c) + [Limit];
  }

  /** The price clauses are there exactly when both bounds are truthy: one bound alone adds nothing. */
  lemma PriceNeedsBothBounds(f: Filters, limit: Param)
    ensures MinCost in Columns(Slots(f, limit)) <==> NumberTruthy(f.minimumPricePerNight) && NumberTruthy(f.maximumPricePerNight)
    ensures MaxCost in Columns(Slots(f, limit)) <==> NumberTruthy(f.minimumPricePerNight) && NumberTruthy(f.maximumPricePerNight)
  {
    ClauseColumns(f, limit);
  }

  /** Every clause comes at most once and the clauses keep the builder's order. */
  lemma ColumnOrder(f: Filters, limit: Param)
    ensures forall i, j :: 0 <= i < j < |Slots(f, limit)| ==> Rank(Slots(f, limit)[i].column) < Rank(Slots(f, limit)[j].column)
  {
    var s := Slots(f, limit);
    ClauseColumns(f, limit);
    var cs := Columns(s);
    assert forall i :: 0 <= i < |s| ==> s[i].column == cs[i];
    forall i, j | 0 <= i < j < |cs|
      ensures Rank(cs[i]) < Rank(cs[j])
    {
      RanksIncrease(f, limit, i, j);
    }
  }

  lemma RanksIncrease(f: Filters, limit: Param, i: int, j: int)
    requires 0 <= i < j < |Columns(Slots(f, limit))|
    ensures Rank(Columns(Slots(f, limit))[i]) < Rank(Columns(Slots(f, limit))[j])
  {
    ClauseColumns(f, limit);
  }

  /** With no truthy filter the query is the header and the LIMIT clause, which names `$1`, the limit. */
  lemma NoFiltersQuery(f: Filters, limit: Param)
    requires !HasOwner(f) && !HasPriceRange(f) && !HasCity(f)
    ensures ParamsOf(Slots(f, limit)) == [limit]
    ensures Text(Slots(f, limit)) == Header() + Fragment(Limit, 1)
  {
    var s := Slots(f, limit);
    assert s == [Slot(Limit, limit)];
    TextSnoc(s, 0);
    assert s[..0] == [] && s[..1] == s;
    assert Text([]) == Header() by {
      assert Header() + "" == Header();
    }
  }

  /** An empty options record with no limit: the default limit 10 is the only parameter. */
  lemma EmptyOptionsUseDefaultLimit()
    ensures ParamsOf(Slots(NoFilters, EffectiveLimit(None))) == [Int(10)]
  {
    NoFiltersQuery(NoFilters, Int(10));
  }

  /** The `$k` placeholders of the text are $1, ..., $n in reading order, one per parameter. */
  lemma PlaceholdersNumberTheParams(f: Filters, limit: Param)
    ensures |Placeholders(Text(Slots(f, limit)))| == |ParamsOf(Slots(f, limit))|
    ensures forall i :: 0 <= i < |ParamsOf(Slots(f, limit))| ==> Placeholders(Text(Slots(f, limit)))[i] == i + 1
  {
    QueryShape(f, limit);
    OneToAt(|ParamsOf(Slots(f, limit))|);
  }

  /** The text of the first n slots is a prefix of the text of all of them. */
  lemma {:induction false} TextPrefix(slots: seq<Slot>, n: nat)
    requires n <= |slots|
    ensures Text(slots[..n]) <= Text(slots)
    decreases |slots|
  {
    if n < |slots| {
      var init := slots[..|slots| - 1];
      assert init[..n] == slots[..n];
      TextPrefix(init, n);
      assert init + [slots[|slots| - 1]] == slots;
      Step(init, slots[|slots| - 1]);
      var frag := Lead(slots[|slots| - 1].column) + NatToString(|init| + 1) + Tail(slots[|slots| - 1].column);
      assert (Text(init) + frag)[..|Text(slots[..n])|] == Text(init)[..|Text(slots[..n])|];
    } else {
      assert slots[..n] == slots;
    }
  }

  lemma {:induction false} ParamsAt(slots: seq<Slot>, i: nat)
    requires i < |slots|
    ensures ParamsOf(slots)[i] == slots[i].param
    decreases |slots|
  {
    if i < |slots| - 1 {
      ParamsAt(slots[..|slots| - 1], i);
    }
  }

  /**
   * The (i+1)-th clause of the text is the fragment of the i-th slot, naming `$(i+1)`,
   * and the i-th parameter is that slot's value.
   */
  lemma ClauseBindsParam(slots: seq<Slot>, i: nat)
    requires i < |slots|
    ensures Text(slots[..i]) + Fragment(slots[i].column, i + 1) <= Text(slots)
    ensures ParamsOf(slots)[i] == slots[i].param
  {
    assert Text(slots[..i]) + Fragment(slots[i].column, i + 1) == Text(slots[..i + 1]) by {
      TextSnoc(slots, i);
    }
    TextPrefix(slots, i + 1);
    ParamsAt(slots, i);
  }

  /** The text of the first i+1 slots extends that of the first i by the i-th fragment. */
  lemma TextSnoc(slots: seq<Slot>, i: nat)
    requires i < |slots|
    ensures Text(slots[..i + 1]) == Text(slots[..i]) + Fragment(slots[i].column, i + 1)
  {
    var c := slots[i].column;
    assert slots[..i] + [slots[i]] == slots[..i + 1];
    Step(slots[..i], slots[i]);
  }

  /** A truthy owner id is the first parameter, as its decimal string, named by `owner_id = $1`. */
  lemma OwnerClause(f: Filters, limit: Param)
    requires HasOwner(f)
    ensures Header() + OwnerFilter() + "1" <= Text(Slots(f, limit))
    ensures ParamsOf(Slots(f, limit))[0] == Str(IntToString(f.ownerId.value))
    ensures ParseInt(ParamsOf(Slots(f, limit))[0].s) == f.ownerId.value
  {
    var s := Slots(f, limit);
    ClauseBindsParam(s, 0);
    assert s[..0] == [];
    assert Text([]) == Header();
    assert Fragment(OwnerId, 1) == OwnerFilter() + "1";
    IntStringRoundTrip(f.ownerId.value);
  }

  /**
   * With both bounds truthy, `cost_per_night > $k` and then `cost_per_night < $(k+1)`
   * follow the owner clause, bound to the two bounds in cents.
   */
  lemma PriceClauses(f: Filters, limit: Param)
    requires HasPriceRange(f)
    ensures var s, o := Slots(f, limit), Count(HasOwner(f));
      Text(s[..o]) + Fragment(MinCost, o + 1) + Fragment(MaxCost, o + 2) <= Text(s)
      && ParamsOf(s)[o] == Int(f.minimumPricePerNight.value * 100)
      && ParamsOf(s)[o + 1] == Int(f.maximumPricePerNight.value * 100)
  {
    var s, o := Slots(f, limit), Count(HasOwner(f));
    assert |OwnerSlots(f)| == o;
    assert s[o].column == MinCost && s[o + 1].column == MaxCost;
    ClauseBindsParam(s, o);
    ClauseBindsParam(s, o + 1);
    TextSnoc(s, o);
  }

  /** A non-empty city is the last parameter before the limit, as a lower-cased LIKE pattern. */
  lemma CityClause(f: Filters, limit: Param)
    requires HasCity(f)
    ensures var s := Slots(f, limit); var k := |s| - 2;
      0 <= k && Text(s[..k]) + Fragment(City, k + 1) <= Text(s)
      && ParamsOf(s)[k] == Str(CityPattern(f.city.value))
  {
    var s := Slots(f, limit);
    assert s[|s| - 2].column == City;
    ClauseBindsParam(s, |s| - 2);
  }

  /** The pattern is `%`, the city lower-cased letter by letter, `%`: a case-insensitive substring match. */
  lemma CityPatternShape(city: string)
    ensures var p := CityPattern(city);
      |p| == |city| + 2 && p[0] == '%' && p[|p| - 1] == '%' && p[1..|p| - 1] == Lower(city)
      && forall i :: 0 < i < |p| - 1 ==> p[i] == LowerChar(city[i - 1]) && !('A' <= p[i] <= 'Z')
  {
    var p := CityPattern(city);
    LowerIsLowerCase(city);
    assert p[1..|p| - 1] == Lower(city);
  }

  /** The SQL text depends only on which clauses are present, never on the bound values. */
  lemma {:induction false} RenderIgnoresValues(lead: Column -> string, tail: Column -> string, s1: seq<Slot>, s2: seq<Slot>)
    requires Columns(s1) == Columns(s2)
    ensures Render(lead, tail, s1) == Render(lead, tail, s2)
    decreases |s1|
  {
    if s1 != [] {
      var n := |s1|;
      assert |s2| == n && s1[n - 1].column == Columns(s1)[n - 1] == s2[n - 1].column;
      assert Columns(s1[..n - 1]) == Columns(s2[..n - 1]) by {
        assert Columns(s1[..n - 1]) == Columns(s1)[..n - 1];
        assert Columns(s2[..n - 1]) == Columns(s2)[..n - 1];
      }
      RenderIgnoresValues(lead, tail, s1[..n - 1], s2[..n - 1]);
    }
  }

  /** Two calls whose filters are truthy in the same places build the same SQL text, whatever the values. */
  lemma TextIgnoresValues(f1: Filters, limit1: Param, f2: Filters, limit2: Param)
    requires HasOwner(f1) == HasOwner(f2) && HasPriceRange(f1) == HasPriceRange(f2) && HasCity(f1) == HasCity(f2)
    ensures Text(Slots(f1, limit1)) == Text(Slots(f2, limit2))
  {
    ClauseColumns(f1, limit1);
    ClauseColumns(f2, limit2);
    RenderIgnoresValues(Lead, Tail, Slots(f1, limit1), Slots(f2, limit2));
  }
}
