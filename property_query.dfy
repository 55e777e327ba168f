/**
 * The filter-query builder of `getAllProperties`: from optional filters and a row
 * limit it builds a SQL text and the list of values bound to its positional
 * parameters. `Slots` and `Text` say declaratively which parameters there are and
 * what text they give; `BuildQuery` builds the same pair step by step, pushing a
 * parameter and then appending a fragment that names it by the list's new length.
 */
module PropertyQuery {
  import opened SqlText

  datatype Option<T> = None | Some(value: T)

  /** A value bound to a positional parameter: the builder pushes strings and integers. */
  datatype Param = Str(s: string) | Int(n: int)

  /**
   * The options record. A missing key is None. The numeric filters are integers:
   * `owner_id` is rendered by a template literal as it is, and the price bounds are
   * integers that `parseInt` reads back unchanged.
   */
  datatype Filters = Filters(
    city: Option<string>,
    ownerId: Option<int>,
    minimumPricePerNight: Option<int>,
    maximumPricePerNight: Option<int>)

  const NoFilters := Filters(None, None, None, None)

  /** The row limit used when the caller passes none. */
  const DefaultLimit := Int(10)

  function EffectiveLimit(limit: Option<Param>): Param {
    if limit.Some? then limit.value else DefaultLimit
  }

  /** JavaScript truthiness of a number: present and not zero. */
  predicate NumberTruthy(v: Option<int>) {
    v.Some? && v.value != 0
  }

  /** JavaScript truthiness of a string: present and not empty. */
  predicate StringTruthy(v: Option<string>) {
    v.Some? && v.value != ""
  }

  predicate HasOwner(f: Filters) {
    NumberTruthy(f.ownerId)
  }

  predicate HasPriceRange(f: Filters) {
    NumberTruthy(f.minimumPricePerNight) && NumberTruthy(f.maximumPricePerNight)
  }

  predicate HasCity(f: Filters) {
    StringTruthy(f.city)
  }

  /** The part of the query each parameter belongs to, in the order the builder adds them. */
  datatype Column = OwnerId | MinCost | MaxCost | City | Limit

  function Rank(c: Column): nat {
    match c
    case OwnerId => 0
    case MinCost => 1
    case MaxCost => 2
    case City => 3
    case Limit => 4
  }

  /** One pushed parameter together with the part of the query that uses it. */
  datatype Slot = Slot(column: Column, param: Param)

  /** The fixed start of the query (SELECT ... WHERE 1=1), as a concatenation of short pieces. */
  function Header(): string {
    "\n    SELECT properties.*, "
    + "avg(property_reviews.rating) "
    + "as average_rating"
    + "\n    FROM properties"
    + "\n    JOIN property_reviews "
    + "ON properties.id = property_id"
    + "\n    WHERE 1=1"
    + "\n  "
  }

  /** The clauses appended to the query, each ending in the `$` of its placeholder. */
  function OwnerFilter(): string { "AND owner_id = $" }
  function MinCostFilter(): string { "AND cost_per_night > $" }
  function MaxCostFilter(): string { "AND cost_per_night < $" }
  function CityFilter(): string { "AND LOWER(city) LIKE $" }
  function Footer(): string { "\n    GROUP BY properties.id" + "\n    ORDER BY cost_per_night" + "\n    LIMIT $" }
  function FooterEnd(): string { ";\n  " }

  /** The text that comes before a parameter's number, ending in `$`. */
  function Lead(c: Column): string {
    match c
    case OwnerId => OwnerFilter()
    case MinCost => MinCostFilter()
    case MaxCost => MaxCostFilter()
    case City => CityFilter()
    case Limit => Footer()
  }

  /** The text that comes after a parameter's number. */
  function Tail(c: Column): string {
    match c
    case City => " "
    case Limit => FooterEnd()
    case _ => ""
  }

  /** The fragment appended for the k-th parameter when it belongs to column c. */
  function Fragment(c: Column, k: nat): string {
    Lead(c) + NatToString(k) + Tail(c)
  }

  /** The parameters `getAllProperties` binds, in order, for the given filters and limit. */
  function Slots(f: Filters, limit: Param): seq<Slot> {
    OwnerSlots(f) + PriceSlots(f) + CitySlots(f) + [Slot(Limit, limit)]
  }

  function OwnerSlots(f: Filters): seq<Slot> {
    if HasOwner(f) then [Slot(OwnerId, Str(IntToString(f.ownerId.value)))] else []
  }

  function PriceSlots(f: Filters): seq<Slot> {
    if HasPriceRange(f)
    then [Slot(MinCost, Int(f.minimumPricePerNight.value * 100)),
          Slot(MaxCost, Int(f.maximumPricePerNight.value * 100))]
    else []
  }

  function CitySlots(f: Filters): seq<Slot> {
    if HasCity(f) then [Slot(City, Str(CityPattern(f.city.value)))] else []
  }

  /** The LIKE pattern bound for a city: its lower-cased name between two `%` wildcards. */
  function CityPattern(city: string): string {
    "%" + Lower(city) + "%"
  }

  /** The header followed by one fragment per slot, the i-th slot named `$i`. */
  function Text(slots: seq<Slot>): string {
    Header() + Render(Lead, Tail, slots)
  }

  /**
   * One fragment per slot, the i-th slot named `$i`, for a wording that gives the text
   * before (`lead`) and after (`tail`) each column's number.
   */
  function Render(lead: Column -> string, tail: Column -> string, slots: seq<Slot>): string {
    if slots == [] then ""
    else
      var c := slots[|slots| - 1].column;
      Render(lead, tail, slots[..|slots| - 1]) + (lead(c) + NatToString(|slots|) + tail(c))
  }

  /** The values bound to `$1`, `$2`, ...: one per slot, in order. */
  function ParamsOf(slots: seq<Slot>): (params: seq<Param>)
    ensures |params| == |slots|
  {
    if slots == [] then [] else ParamsOf(slots[..|slots| - 1]) + [slots[|slots| - 1].param]
  }

  function Columns(slots: seq<Slot>): seq<Column> {
    seq(|slots|, i requires 0 <= i < |slots| => slots[i].column)
  }

  predicate EndsWith(s: string, t: string) {
    |t| <= |s| && s[|s| - |t|..] == t
  }

  function Count(b: bool): nat {
    if b then 1 else 0
  }

  /**
   * Builds the SQL text and its parameter list, as `getAllProperties` does before
   * handing them to the database.
   */
  method BuildQuery(options: Filters, limit: Option<Param>) returns (queryString: string, queryParams: seq<Param>)
    ensures queryString == Text(Slots(options, EffectiveLimit(limit)))
    ensures queryParams == ParamsOf(Slots(options, EffectiveLimit(limit)))
  {
    var lim := if limit.Some? then limit.value else DefaultLimit;
    // the slots pushed so far; Built ties them to the text and the parameters
    ghost var slots: seq<Slot> := [];
    queryParams := [];
    queryString := Header();
    assert Built(queryString, queryParams, slots);
    queryString, queryParams := AddOwnerFilter(options, queryString, queryParams, slots);
    slots := slots + OwnerSlots(options);
    queryString, queryParams := AddPriceFilter(options, queryString, queryParams, slots);
    slots := slots + PriceSlots(options);
    queryString, queryParams := AddCityFilter(options, queryString, queryParams, slots);
    slots := slots + CitySlots(options);
    ghost var q, p := queryString, queryParams;
    queryParams := queryParams + [lim];
    queryString := queryString + Footer() + NatToString(|queryParams|) + FooterEnd();
    Push(q, p, slots, Slot(Limit, lim), Footer(), FooterEnd());
    slots := slots + [Slot(Limit, lim)];
    assert slots == Slots(options, lim);
  }

  /** The owner block: when `owner_id` is truthy, binds its decimal string and filters on it. */
  method AddOwnerFilter(options: Filters, queryString: string, queryParams: seq<Param>, ghost slots: seq<Slot>)
    returns (q: string, p: seq<Param>)
    requires Built(queryString, queryParams, slots)
    ensures Built(q, p, slots + OwnerSlots(options))
  {
    q, p := queryString, queryParams;
    if NumberTruthy(options.ownerId) {
      var owner := Str(IntToString(options.ownerId.value));
      p := p + [owner];
      q := q + OwnerFilter() + NatToString(|p|);
      PushUntailed(queryString, queryParams, slots, Slot(OwnerId, owner), OwnerFilter());
    } else {
      assert slots + OwnerSlots(options) == slots;
    }
  }

  /**
   * The price block: only when both bounds are truthy, binds each bound in cents and
   * keeps the rows strictly between them.
   */
  method AddPriceFilter(options: Filters, queryString: string, queryParams: seq<Param>, ghost slots: seq<Slot>)
    returns (q: string, p: seq<Param>)
    requires Built(queryString, queryParams, slots)
    ensures Built(q, p, slots + PriceSlots(options))
  {
    q, p := queryString, queryParams;
    if NumberTruthy(options.minimumPricePerNight) && NumberTruthy(options.maximumPricePerNight) {
      var min := options.minimumPricePerNight.value * 100;
      var max := options.maximumPricePerNight.value * 100;
      p := p + [Int(min)];
      q := q + MinCostFilter() + NatToString(|p|);
      PushUntailed(queryString, queryParams, slots, Slot(MinCost, Int(min)), MinCostFilter());
      ghost var q1, p1 := q, p;
      p := p + [Int(max)];
      q := q + MaxCostFilter() + NatToString(|p|);
      PushUntailed(q1, p1, slots + [Slot(MinCost, Int(min))], Slot(MaxCost, Int(max)), MaxCostFilter());
      assert slots + [Slot(MinCost, Int(min))] + [Slot(MaxCost, Int(max))] == slots + PriceSlots(options);
    } else {
      assert slots + PriceSlots(options) == slots;
    }
  }

  /** The city block: when `city` is non-empty, binds a case-insensitive LIKE pattern for it. */
  method AddCityFilter(options: Filters, queryString: string, queryParams: seq<Param>, ghost slots: seq<Slot>)
    returns (q: string, p: seq<Param>)
    requires Built(queryString, queryParams, slots)
    ensures Built(q, p, slots + CitySlots(options))
  {
    q, p := queryString, queryParams;
    if StringTruthy(options.city) {
      var pattern := Str("%" + Lower(options.city.value) + "%");
      p := p + [pattern];
      q := q + CityFilter() + NatToString(|p|) + " ";
      Push(queryString, queryParams, slots, Slot(City, pattern), CityFilter(), " ");
    } else {
      assert slots + CitySlots(options) == slots;
    }
  }

  /** The text and parameters built so far are those of `slots`. */
  predicate Built(q: string, p: seq<Param>, slots: seq<Slot>) {
    q == Text(slots) && p == ParamsOf(slots) && |p| == |slots|
  }

  /** Pushing a parameter and appending the fragment that names it by the new length. */
  lemma Push(q: string, p: seq<Param>, slots: seq<Slot>, x: Slot, lead: string, tail: string)
    requires Built(q, p, slots)
    requires lead == Lead(x.column) && tail == Tail(x.column)
    ensures Built(q + lead + NatToString(|p + [x.param]|) + tail, p + [x.param], slots + [x])
  {
    Step(slots, x);
  }

  /** Push for a column whose fragment ends with the parameter's number. */
  lemma PushUntailed(q: string, p: seq<Param>, slots: seq<Slot>, x: Slot, lead: string)
    requires Built(q, p, slots)
    requires lead == Lead(x.column) && Tail(x.column) == ""
    ensures Built(q + lead + NatToString(|p + [x.param]|), p + [x.param], slots + [x])
  {
    Push(q, p, slots, x, lead, "");
    assert q + lead + NatToString(|p + [x.param]|) + "" == q + lead + NatToString(|p + [x.param]|);
  }

  /** What the builder's result looks like, stated on the declarative definition. */
  lemma QueryShape(f: Filters, limit: Param)
    ensures |ParamsOf(Slots(f, limit))| == 1 + Count(HasOwner(f)) + 2 * Count(HasPriceRange(f)) + Count(HasCity(f))
    ensures ParamsOf(Slots(f, limit))[|ParamsOf(Slots(f, limit))| - 1] == limit
    ensures EndsWith(Text(Slots(f, limit)), Fragment(Limit, |ParamsOf(Slots(f, limit))|))
    ensures Placeholders(Text(Slots(f, limit))) == OneTo(|ParamsOf(Slots(f, limit))|)
  {
    var s := Slots(f, limit);
    var init := OwnerSlots(f) + PriceSlots(f) + CitySlots(f);
    assert s == init + [Slot(Limit, limit)];
    assert ParamsOf(s)[|s| - 1] == limit by {
      ParamsSnoc(init, Slot(Limit, limit));
    }
    assert EndsWith(Text(s), Fragment(Limit, |s|)) by {
      Step(init, Slot(Limit, limit));
      Regroup(Text(init), Lead(Limit), NatToString(|s|), Tail(Limit));
      EndsWithAppend(Text(init), Fragment(Limit, |s|));
    }
    TextPlaceholders(s);
  }

  /** What one push-and-append step of the builder adds to the text and to the parameters. */
  lemma Step(slots: seq<Slot>, x: Slot)
    ensures Text(slots + [x]) == Text(slots) + Lead(x.column) + NatToString(|slots| + 1) + Tail(x.column)
    ensures ParamsOf(slots + [x]) == ParamsOf(slots) + [x.param]
  {
    RenderSnoc(Lead, Tail, slots, x);
    ParamsSnoc(slots, x);
    RegroupText(Header(), Render(Lead, Tail, slots), Lead(x.column), NatToString(|slots| + 1), Tail(x.column));
  }

  /**
   * Regrouping a concatenation. Stated over plain strings so that the solver never
   * unfolds the clause literals while regrouping them.
   */
  lemma RegroupText(h: string, b: string, l: string, n: string, t: string)
    ensures h + (b + (l + n + t)) == h + b + l + n + t
  {
  }

  /** A text ends with whatever was appended last; over plain strings, like the regroupings. */
  lemma EndsWithAppend(s: string, t: string)
    ensures EndsWith(s + t, t)
  {
    assert (s + t)[|s|..] == t;
  }

  /** The same regrouping for a text followed by one fragment. */
  lemma Regroup(h: string, l: string, n: string, t: string)
    ensures h + l + n + t == h + (l + n + t)
  {
  }

  /** Appending a slot appends its fragment, numbered by the new length. */
  lemma RenderSnoc(lead: Column -> string, tail: Column -> string, slots: seq<Slot>, x: Slot)
    ensures Render(lead, tail, slots + [x])
         == Render(lead, tail, slots) + (lead(x.column) + NatToString(|slots| + 1) + tail(x.column))
  {
    assert (slots + [x])[..|slots|] == slots;
  }

  /** Appending a slot appends its parameter. */
  lemma ParamsSnoc(slots: seq<Slot>, x: Slot)
    ensures ParamsOf(slots + [x]) == ParamsOf(slots) + [x.param]
  {
    assert (slots + [x])[..|slots|] == slots;
  }

  /** Dollar-free text, not starting with a digit, followed by the `$` of a placeholder. */
  predicate EndsInDollar(l: string) {
    |l| > 0 && l[|l| - 1] == '$' && NoDollar(l[..|l| - 1]) && !IsDigit(l[0])
  }

  /** Every fragment of the wording names its own parameter and nothing else. */
  predicate SafeWording(lead: Column -> string, tail: Column -> string) {
    forall c :: EndsInDollar(lead(c)) && NoDollar(tail(c)) && StartsWithNonDigit(tail(c))
  }

  lemma ClauseEndsInDollar(prefix: string)
    requires NoDollar(prefix) && StartsWithNonDigit(prefix)
    ensures EndsInDollar(prefix + "$")
  {
    assert (prefix + "$")[..|prefix|] == prefix;
  }

  /** The clauses of the query are a safe wording. */
  lemma QueryWordingIsSafe()
    ensures SafeWording(Lead, Tail)
  {
    FilterClausesEndInDollar();
    LimitClauseEndsInDollar();
    assert forall c :: EndsInDollar(Lead(c)) by {
      forall c: Column ensures EndsInDollar(Lead(c)) {
        match c
        case OwnerId =>
        case MinCost =>
        case MaxCost =>
        case City =>
        case Limit =>
      }
    }
    assert forall c :: NoDollar(Tail(c)) && StartsWithNonDigit(Tail(c)) by {
      forall c: Column ensures NoDollar(Tail(c)) && StartsWithNonDigit(Tail(c)) {
        assert Tail(c) == "" || Tail(c) == " " || Tail(c) == ";\n  ";
      }
    }
  }

  lemma FilterClausesEndInDollar()
    ensures EndsInDollar(OwnerFilter()) && EndsInDollar(MinCostFilter())
    ensures EndsInDollar(MaxCostFilter()) && EndsInDollar(CityFilter())
  {
    ClauseEndsInDollar("AND owner_id = ");
    assert OwnerFilter() == "AND owner_id = " + "$";
    ClauseEndsInDollar("AND cost_per_night > ");
    assert MinCostFilter() == "AND cost_per_night > " + "$";
    ClauseEndsInDollar("AND cost_per_night < ");
    assert MaxCostFilter() == "AND cost_per_night < " + "$";
    ClauseEndsInDollar("AND LOWER(city) LIKE ");
    assert CityFilter() == "AND LOWER(city) LIKE " + "$";
  }

  lemma LimitClauseEndsInDollar()
    ensures EndsInDollar(Footer())
  {
    var prefix := "\n    GROUP BY properties.id" + "\n    ORDER BY cost_per_night" + "\n    LIMIT ";
    assert NoDollar(prefix);
    ClauseEndsInDollar(prefix);
    assert "\n    LIMIT $" == "\n    LIMIT " + "$";
    assert Footer() == prefix + "$";
  }

  lemma HeaderHasNoPlaceholders()
    ensures Placeholders(Header()) == []
  {
    var h := "\n    SELECT properties.*, ";
    h := h + "avg(property_reviews.rating) ";
    assert NoDollar(h);
    h := h + "as average_rating";
    assert NoDollar(h);
    h := h + "\n    FROM properties";
    assert NoDollar(h);
    h := h + "\n    JOIN property_reviews ";
    assert NoDollar(h);
    h := h + "ON properties.id = property_id";
    assert NoDollar(h);
    h := h + "\n    WHERE 1=1";
    assert NoDollar(h);
    h := h + "\n  ";
    assert NoDollar(h);
    assert h == Header();
    NoDollarHasNoPlaceholders(h);
  }

  /** A fragment names exactly its own parameter. */
  lemma FragmentPlaceholders(lead: string, k: nat, tail: string)
    requires EndsInDollar(lead) && NoDollar(tail) && StartsWithNonDigit(tail)
    ensures Placeholders(lead + NatToString(k) + tail) == [k]
    ensures StartsWithNonDigit(lead + NatToString(k) + tail)
  {
    var b := lead[..|lead| - 1];
    var t := "$" + NatToString(k);
    assert lead + NatToString(k) + tail == b + (t + tail);
    NoDollarHasNoPlaceholders(b);
    NoDollarHasNoPlaceholders(tail);
    PlaceholderToken(k);
    PlaceholdersAppend(t, tail);
    PlaceholdersAppend(b, t + tail);
  }

  /** The i-th placeholder of the fragments, in reading order, is `$i`, for each of the slots. */
  lemma {:induction false} RenderPlaceholders(lead: Column -> string, tail: Column -> string, slots: seq<Slot>)
    requires SafeWording(lead, tail)
    ensures Placeholders(Render(lead, tail, slots)) == OneTo(|slots|)
    ensures StartsWithNonDigit(Render(lead, tail, slots))
    decreases |slots|
  {
    if slots != [] {
      var n := |slots|;
      var c := slots[n - 1].column;
      var prev, f := Render(lead, tail, slots[..n - 1]), lead(c) + NatToString(n) + tail(c);
      assert Render(lead, tail, slots) == prev + f;
      RenderPlaceholders(lead, tail, slots[..n - 1]);
      FragmentPlaceholders(lead(c), n, tail(c));
      PlaceholdersAppend(prev, f);
      if prev == [] {
        assert prev + f == f;
      } else {
        assert (prev + f)[0] == prev[0];
      }
    }
  }

  /** The i-th placeholder of the query text, in reading order, is `$i`, for each of the slots. */
  lemma TextPlaceholders(slots: seq<Slot>)
    ensures Placeholders(Text(slots)) == OneTo(|slots|)
  {
    HeaderHasNoPlaceholders();
    QueryWordingIsSafe();
    RenderPlaceholders(Lead, Tail, slots);
    PlaceholdersAppend(Header(), Render(Lead, Tail, slots));
  }
}
