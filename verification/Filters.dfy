/** The part of the query language the lookups use, over documents as they are stored. */
module Filters {
  import opened Documents

  /** A stored enum string: one of today's values, or one retired since it was written. */
  datatype StateWord = StateNow(state: OpenShiftState) | StateRetired(spelling: string)

  datatype SeverityWord = SeverityNow(severity: HealthSeverity) | InfoRetired

  /** A document as stored. `None` is a field that is missing or null; `rest` holds, decoded,
      the fields no clause of this module reads, and `answers` the caller's questions (does its
      name match this pattern, is it of this vendor) that are true of it. */
  datatype Raw = Raw(
    rest: Server,
    answers: set<string>,
    state: Option<StateWord>,
    inMaintenance: Option<bool>,
    reachable: Option<bool>,
    overall: Option<SeverityWord>,
    network: Option<SeverityWord>,
    nicMacs: Option<seq<string>>,
    unread: Option<seq<Field>>,
    holder: Option<string>,
    expiresAt: Option<Instant>)

  datatype Path =
    | StatePath
    | MaintenancePath
    | ReachablePath
    | OverallPath
    | NetworkPath
    | NicMacPath(index: nat)
    | UnreadPath
    | HolderPath
    | ExpiryPath
    | OtherPath(name: string)

  datatype Value =
    | Flag(flag: bool)
    | State(word: StateWord)
    | Severity(rank: SeverityWord)
    | Text(text: string)
    | Moment(at: Instant)
    | FieldName(field: Field)
    | List(items: seq<Value>)

  datatype Cond =
    | Equals(value: Value)
    | IsNull
    | NotNull
    | NotEquals(value: Value)
    | OneOf(values: seq<Value>)
    | NoneIn(values: seq<Value>)
    | Greater(than: Value)
    | Exists
    // A name pattern, a vendor or a provider: whatever the caller asked for.
    | Answers(question: string)

  datatype Filter = Filter(clauses: seq<Clause>)

  datatype Clause =
    | On(path: Path, cond: Cond)
    | Nor(filters: seq<Filter>)
    | Or(filters: seq<Filter>)
    | And(filters: seq<Filter>)

  function Boxed<T>(value: Option<T>, box: T -> Value): Option<Value> {
    if value.Some? then Some(box(value.value)) else None
  }

  /** What a document holds at a path; a number in a path indexes an array. */
  function At(raw: Raw, path: Path): Option<Value> {
    match path
    case StatePath => Boxed(raw.state, (w: StateWord) => State(w))
    case MaintenancePath => Boxed(raw.inMaintenance, (b: bool) => Flag(b))
    case ReachablePath => Boxed(raw.reachable, (b: bool) => Flag(b))
    case OverallPath => Boxed(raw.overall, (w: SeverityWord) => Severity(w))
    case NetworkPath => Boxed(raw.network, (w: SeverityWord) => Severity(w))
    case NicMacPath(index) =>
      if raw.nicMacs.Some? && index < |raw.nicMacs.value| then Some(Text(raw.nicMacs.value[index])) else None
    case UnreadPath =>
      Boxed(raw.unread, (names: seq<Field>) => List(seq(|names|, i requires 0 <= i < |names| => FieldName(names[i]))))
    case HolderPath => Boxed(raw.holder, (text: string) => Text(text))
    case ExpiryPath => Boxed(raw.expiresAt, (at: Instant) => Moment(at))
    case OtherPath(_) => None
  }

  /** Equality looks inside arrays. */
  predicate Is(found: Option<Value>, value: Value) {
    found.Some? && (found.value == value || (found.value.List? && value in found.value.items))
  }

  predicate Meets(raw: Raw, found: Option<Value>, cond: Cond) {
    match cond
    case Equals(value) => Is(found, value)
    case IsNull => found.None?
    case NotNull => found.Some?
    case NotEquals(value) => !Is(found, value)
    case OneOf(values) => exists v | v in values :: Is(found, v)
    case NoneIn(values) => forall v | v in values :: !Is(found, v)
    // Values of different types do not compare.
    case Greater(than) => found.Some? && found.value.Moment? && than.Moment? && found.value.at > than.at
    case Exists => found.Some?
    case Answers(question) => question in raw.answers
  }

  predicate Matches(filter: Filter, raw: Raw) {
    forall clause | clause in filter.clauses :: Holds(clause, raw)
  }

  predicate Holds(clause: Clause, raw: Raw) {
    match clause
    case On(path, cond) => Meets(raw, At(raw, path), cond)
    case Nor(filters) => forall f | f in filters :: !Matches(f, raw)
    case Or(filters) => exists f | f in filters :: Matches(f, raw)
    case And(filters) => forall f | f in filters :: Matches(f, raw)
  }

  predicate SameKey(a: Clause, b: Clause) {
    match a
    case On(path, _) => b.On? && b.path == path
    case Nor(_) => b.Nor?
    case Or(_) => b.Or?
    case And(_) => b.And?
  }

  function Without(clauses: seq<Clause>, keys: seq<Clause>): seq<Clause> {
    if clauses == [] then []
    else (if exists k | k in keys :: SameKey(clauses[0], k) then [] else [clauses[0]]) + Without(clauses[1..], keys)
  }

  /** One dictionary merged over another: a key of the later one replaces the earlier's. */
  function Merged(earlier: Filter, later: Filter): Filter {
    Filter(Without(earlier.clauses, later.clauses) + later.clauses)
  }

  ghost predicate Apart(a: Filter, b: Filter) {
    forall c, d | c in a.clauses && d in b.clauses :: !SameKey(c, d)
  }

  lemma {:induction false} NothingReplaced(clauses: seq<Clause>, keys: seq<Clause>)
    requires forall c, k | c in clauses && k in keys :: !SameKey(c, k)
    ensures Without(clauses, keys) == clauses
  {
    if clauses != [] {
      assert clauses[0] in clauses;
      NothingReplaced(clauses[1..], keys);
    }
  }

  /** Merging dictionaries that share no key asks for both. */
  lemma MergeAsksForBoth(a: Filter, b: Filter, raw: Raw)
    requires Apart(a, b)
    ensures Matches(Merged(a, b), raw) <==> Matches(a, raw) && Matches(b, raw)
  {
    NothingReplaced(a.clauses, b.clauses);
    assert Merged(a, b).clauses == a.clauses + b.clauses;
    forall c | c in a.clauses || c in b.clauses ensures c in Merged(a, b).clauses {}
  }

  lemma ApartFromBoth(a: Filter, b: Filter, c: Filter)
    requires Apart(a, c) && Apart(b, c)
    ensures Apart(Merged(a, b), c)
  {
    forall x | x in Merged(a, b).clauses ensures x in a.clauses || x in b.clauses {
      WithoutIsPart(a.clauses, b.clauses);
    }
  }

  lemma {:induction false} WithoutIsPart(clauses: seq<Clause>, keys: seq<Clause>)
    ensures forall c | c in Without(clauses, keys) :: c in clauses
  {
    if clauses != [] { WithoutIsPart(clauses[1..], keys); }
  }

  function Only(path: Path, cond: Cond): Filter {
    Filter([On(path, cond)])
  }

  /** What one clause alone asks. */
  lemma OnlyAsks(path: Path, cond: Cond, raw: Raw)
    ensures Matches(Only(path, cond), raw) <==> Meets(raw, At(raw, path), cond)
  {
    assert On(path, cond) in Only(path, cond).clauses;
  }

  lemma TwoAsk(a: Clause, b: Clause, raw: Raw)
    ensures Matches(Filter([a, b]), raw) <==> Holds(a, raw) && Holds(b, raw)
  {
    assert a in Filter([a, b]).clauses && b in Filter([a, b]).clauses;
  }

  /** A caller's own filter asks its question, and nothing else: several of them all, an
      alternative either. */
  lemma CallerAsks(name: string, question: string, other: string, raw: Raw)
    ensures Matches(Only(OtherPath(name), Answers(question)), raw) <==> question in raw.answers
    ensures Matches(Filter([Or([Only(OtherPath(name), Answers(question)), Only(OtherPath(name), Answers(other))])]), raw) <==>
              question in raw.answers || other in raw.answers
  {
    OnlyAsks(OtherPath(name), Answers(question), raw);
    OnlyAsks(OtherPath(name), Answers(other), raw);
    var either := [Only(OtherPath(name), Answers(question)), Only(OtherPath(name), Answers(other))];
    assert either[0] in either && either[1] in either;
    var clauses := Filter([Or(either)]).clauses;
    assert clauses[0] == Or(either) && Or(either) in clauses;
  }
}
