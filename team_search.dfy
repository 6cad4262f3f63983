/**
  GET /api/teams/search: the team lookup of the operator console. In `auto`
  mode the trimmed query becomes either an exact id filter or a disjunction
  of case-insensitive literal searches over the team name and the members'
  e-mails, names and uids; the first 50 matches are then ordered by
  relevance. The explicit types `email`, `name` and `id` search one field.
*/
module TeamSearch {
  import opened Common
  import opened Models
  import opened RegexEscape
  import opened StableSort

  // ---------------------------------------------------------------------
  // Words: `q.split(/\s+/).filter(w => w.length > 0)`
  // ---------------------------------------------------------------------

  /** The longest prefix without white space. */
  function NonSpacePrefix(s: string): (r: string)
    ensures |r| <= |s| && r == s[..|r|]
    ensures forall i :: 0 <= i < |r| ==> !IsSpace(r[i])
    ensures |r| < |s| ==> IsSpace(s[|r|])
  {
    if |s| > 0 && !IsSpace(s[0]) then [s[0]] + NonSpacePrefix(s[1..]) else []
  }

  predicate IsWord(w: string)
  {
    |w| > 0 && NoSpace(w)
  }

  /** The maximal runs of non-space characters, in order. */
  function Words(s: string): seq<string>
    decreases |s|
  {
    var t := TrimStart(s);
    if |t| == 0 then []
    else
      var w := NonSpacePrefix(t);
      FirstWord(s);
      [w] + Words(t[|w|..])
  }

  /** The first run of a string that is not all white space is a word, and
      what follows it is shorter than the string. */
  lemma FirstWord(s: string)
    requires |TrimStart(s)| > 0
    ensures var t := TrimStart(s);
      var w := NonSpacePrefix(t);
      IsWord(w) && |w| <= |t| && |t[|w|..]| < |s|
  {
    var t := TrimStart(s);
    assert !IsSpace(t[0]);
  }

  /** Every piece of the split is a non-empty run without white space. */
  lemma {:induction false} WordsAreWords(s: string)
    ensures forall k :: 0 <= k < |Words(s)| ==> IsWord(Words(s)[k])
    decreases |s|
  {
    var t := TrimStart(s);
    if |t| > 0 {
      var w := NonSpacePrefix(t);
      FirstWord(s);
      var rest := Words(t[|w|..]);
      WordsAreWords(t[|w|..]);
      assert Words(s) == [w] + rest;
      forall k | 0 <= k < |Words(s)|
        ensures IsWord(Words(s)[k])
      {
        if k > 0 {
          assert Words(s)[k] == rest[k - 1];
        }
      }
    }
  }

  predicate NoSpace(s: string)
  {
    forall i :: 0 <= i < |s| ==> !IsSpace(s[i])
  }

  /** A query without white space is a single word. */
  lemma SingleWord(t: string)
    requires |t| > 0 && NoSpace(t)
    ensures Words(t) == [t]
  {
    assert TrimStart(t) == t;
    assert NonSpacePrefix(t) == t;
    assert t[|t|..] == [];
  }

  // ---------------------------------------------------------------------
  // Filters
  // ---------------------------------------------------------------------

  datatype SearchField = MemberEmail | TeamName | MemberName | MemberUid

  /** `{ field: { $regex: parts.map(escapeRegex).join('.*'), $options: 'i' } }`:
      the literal parts must occur in this order, ignoring case. */
  datatype Clause = Clause(field: SearchField, parts: seq<string>)

  datatype Query =
    | ById(id: string)          // { _id: new ObjectId(id) }
    | AnyOf(clauses: seq<Clause>)  // { $or: clauses }
    | MatchAll                  // {}

  /** The regular expression a clause sends to the store. */
  function Pattern(parts: seq<string>): (r: string)
    ensures |parts| == 1 ==> r == EscapeRegex(parts[0])
  {
    if |parts| == 0 then ""
    else if |parts| == 1 then EscapeRegex(parts[0])
    else EscapeRegex(parts[0]) + ".*" + Pattern(parts[1..])
  }

  /** What the store's regex match means for a pattern built from literal
      parts: they occur in `text` in order, without overlapping. */
  predicate InOrder(text: string, parts: seq<string>)
    decreases |parts|
  {
    if |parts| == 0 then true
    else exists i :: (0 <= i <= |text| - |parts[0]| && OccursAt(text, parts[0], i) &&
                      InOrder(text[i + |parts[0]|..], parts[1..]))
  }

  function LowerAll(parts: seq<string>): (r: seq<string>)
    ensures |r| == |parts| && forall k :: 0 <= k < |parts| ==> r[k] == ToLower(parts[k])
  {
    seq(|parts|, k requires 0 <= k < |parts| => ToLower(parts[k]))
  }

  predicate PartsMatch(value: string, parts: seq<string>)
  {
    InOrder(ToLower(value), LowerAll(parts))
  }

  /** A one-part clause is a case-insensitive substring search. */
  lemma OnePartIsSubstring(value: string, part: string)
    ensures PartsMatch(value, [part]) <==> CiContains(value, part)
  {
    var lp := LowerAll([part]);
    var x := ToLower(value);
    assert lp == [ToLower(part)];
    assert lp[1..] == [];
    if CiContains(value, part) {
      var i :| 0 <= i <= |x| - |lp[0]| && OccursAt(x, lp[0], i);
      assert InOrder(x[i + |lp[0]|..], lp[1..]);
    }
  }

  predicate ClauseMatches(c: Clause, t: TeamDoc)
  {
    match c.field
    case TeamName => PartsMatch(t.name, c.parts)
    case MemberEmail => exists k :: 0 <= k < |t.members| && PartsMatch(t.members[k].email, c.parts)
    case MemberName => exists k :: 0 <= k < |t.members| && PartsMatch(t.members[k].name, c.parts)
    case MemberUid => exists k :: 0 <= k < |t.members| && PartsMatch(t.members[k].uid, c.parts)
  }

  predicate Matches(q: Query, t: TeamDoc)
  {
    match q
    case ById(id) => t.id == id
    case AnyOf(cs) => exists k :: 0 <= k < |cs| && ClauseMatches(cs[k], t)
    case MatchAll => true
  }

  /** `find(filter).limit(50)`: the first 50 matches in store order. */
  function Find(docs: seq<TeamDoc>, q: Query): (r: seq<TeamDoc>)
    ensures |r| <= 50
    ensures forall k :: 0 <= k < |r| ==> r[k] in docs && Matches(q, r[k])
  {
    var all := Filter(docs, t => Matches(q, t));
    if |all| <= 50 then all else all[..50]
  }

  // ---------------------------------------------------------------------
  // The smart query
  // ---------------------------------------------------------------------

  /** `/[@._-]/`. */
  predicate HasSpecial(t: string)
  {
    HasChar(t, '@') || HasChar(t, '.') || HasChar(t, '_') || HasChar(t, '-')
  }

  predicate IsUidChar(c: char)
  {
    IsDigit(c) || IsUpper(c) || IsLower(c) || c == '_' || c == '-'
  }

  /** `/^[a-zA-Z0-9_-]{8,}$/`. */
  predicate UidLike(t: string)
  {
    |t| >= 8 && forall i :: 0 <= i < |t| ==> IsUidChar(t[i])
  }

  /** Several words are joined by `.*`; otherwise the whole query is one part. */
  function NameParts(t: string): seq<string>
  {
    var ws := Words(t);
    if |ws| > 1 then ws else [t]
  }

  function Opt(b: bool, c: Clause): seq<Clause>
  {
    if b then [c] else []
  }

  /** The clauses in the order they are pushed: the e-mail clause when `e`,
      the team-name clause, the member-name clause when `m`, the member-uid
      clause when `u`. */
  function Layout(e: bool, m: bool, u: bool, t: string, np: seq<string>): seq<Clause>
  {
    Opt(e, Clause(MemberEmail, [t])) + [Clause(TeamName, np)] +
    Opt(m, Clause(MemberName, np)) + Opt(u, Clause(MemberUid, [t]))
  }

  /** The clauses `buildSmartQuery` collects for a trimmed query that is
      not an id. */
  function SmartClauseList(t: string): seq<Clause>
  {
    Layout(HasChar(t, '@'), !HasSpecial(t), UidLike(t), t, NameParts(t))
  }

  /** The filter `buildSmartQuery` returns for a query. */
  function SmartFilter(query: string): Query
  {
    var t := Trim(query);
    if Hex24(t) then ById(t)
    else
      var cs := SmartClauseList(t);
      if |cs| > 0 then AnyOf(cs) else MatchAll
  }

  predicate HasClause(q: Query, f: SearchField, parts: seq<string>)
  {
    q.AnyOf? && exists k :: 0 <= k < |q.clauses| && q.clauses[k] == Clause(f, parts)
  }

  predicate HasField(q: Query, f: SearchField)
  {
    q.AnyOf? && exists k :: 0 <= k < |q.clauses| && q.clauses[k].field == f
  }

  /** A trimmed query of 24 hex digits is an id search and nothing else. */
  lemma SmartIdOnly(query: string)
    requires Hex24(Trim(query))
    ensures SmartFilter(query) == ById(Trim(query))
  {
  }

  function FieldOrder(f: SearchField): nat
  {
    match f
    case MemberEmail => 0
    case TeamName => 1
    case MemberName => 2
    case MemberUid => 3
  }

  /** What the layout holds, in terms of its three switches. */
  lemma LayoutFacts(e: bool, m: bool, u: bool, t: string, np: seq<string>)
    ensures var q := AnyOf(Layout(e, m, u, t, np));
      HasClause(q, TeamName, np) &&
      (HasField(q, MemberEmail) <==> e) && (HasField(q, MemberName) <==> m) && (HasField(q, MemberUid) <==> u) &&
      (e ==> HasClause(q, MemberEmail, [t])) && (m ==> HasClause(q, MemberName, np)) && (u ==> HasClause(q, MemberUid, [t])) &&
      (forall i, j :: 0 <= i < j < |q.clauses| ==> FieldOrder(q.clauses[i].field) < FieldOrder(q.clauses[j].field))
  {
    var cs := Layout(e, m, u, t, np);
    var ei := if e then 1 else 0;
    var mi := if m then 1 else 0;
    assert cs[ei] == Clause(TeamName, np);
    if e { assert cs[0] == Clause(MemberEmail, [t]); }
    if m { assert cs[ei + 1] == Clause(MemberName, np); }
    if u { assert cs[|cs| - 1] == Clause(MemberUid, [t]); }
    assert forall k :: 0 <= k < |cs| ==>
      FieldOrder(cs[k].field) == (if k < ei then 0 else if k == ei then 1 else if k == ei + 1 && m then 2 else 3);
  }

  /** Otherwise the team-name clause is always there, so the filter is never
      the match-everything `{}`. */
  lemma SmartNeverMatchAll(query: string)
    requires !Hex24(Trim(query))
    ensures SmartFilter(query).AnyOf?
    ensures HasClause(SmartFilter(query), TeamName, NameParts(Trim(query)))
  {
    var t := Trim(query);
    LayoutFacts(HasChar(t, '@'), !HasSpecial(t), UidLike(t), t, NameParts(t));
  }

  /** Each further clause is added exactly under its condition, with the
      fields in the order e-mail, team name, member name, member uid, so
      every field occurs at most once. */
  lemma SmartClauses(query: string)
    requires !Hex24(Trim(query))
    ensures var t := Trim(query); var q := SmartFilter(query);
      (HasField(q, MemberEmail) <==> HasChar(t, '@')) &&
      (HasField(q, MemberName) <==> !HasSpecial(t)) &&
      (HasField(q, MemberUid) <==> UidLike(t)) &&
      (HasChar(t, '@') ==> HasClause(q, MemberEmail, [t])) &&
      (!HasSpecial(t) ==> HasClause(q, MemberName, NameParts(t))) &&
      (UidLike(t) ==> HasClause(q, MemberUid, [t])) &&
      (forall i, j :: 0 <= i < j < |q.clauses| ==> FieldOrder(q.clauses[i].field) < FieldOrder(q.clauses[j].field))
  {
    var t := Trim(query);
    LayoutFacts(HasChar(t, '@'), !HasSpecial(t), UidLike(t), t, NameParts(t));
  }

  /** A one-word query searches the team name (and member names) for the
      whole query as a substring. */
  lemma SmartOneWord(query: string)
    requires var t := Trim(query); |t| > 0 && NoSpace(t)
    ensures NameParts(Trim(query)) == [Trim(query)]
  {
    SingleWord(Trim(query));
  }

  lemma SmartFilterIs(query: string, t: string, np: seq<string>)
    requires t == Trim(query) && !Hex24(t) && np == NameParts(t)
    ensures SmartFilter(query) == AnyOf(Layout(HasChar(t, '@'), !HasSpecial(t), UidLike(t), t, np))
  {
    assert |Layout(HasChar(t, '@'), !HasSpecial(t), UidLike(t), t, np)| > 0;
  }

  /** The clauses pushed one after another, as `buildSmartQuery` does. */
  method PushClauses(hasAt: bool, plain: bool, uid: bool, t: string, np: seq<string>) returns (filters: seq<Clause>)
    ensures filters == Layout(hasAt, plain, uid, t, np)
  {
    filters := [];
    if hasAt {
      filters := filters + [Clause(MemberEmail, [t])];
    }
    assert filters == Opt(hasAt, Clause(MemberEmail, [t]));
    filters := filters + [Clause(TeamName, np)];
    ghost var before := filters;
    if plain {
      filters := filters + [Clause(MemberName, np)];
    }
    assert filters == before + Opt(plain, Clause(MemberName, np));
    before := filters;
    if uid {
      filters := filters + [Clause(MemberUid, [t])];
    }
    assert filters == before + Opt(uid, Clause(MemberUid, [t]));
  }

  datatype SmartQuery = SmartQuery(filter: Query, searchType: string, description: string)

  /** `buildSmartQuery`, pushing one clause after another. */
  method BuildSmartQuery(query: string) returns (r: SmartQuery)
    ensures r.filter == SmartFilter(query)
    ensures r.searchType == (if Hex24(Trim(query)) then "id" else "auto")
  {
    var t := Trim(query);
    if Hex24(t) {
      return SmartQuery(ById(t), "id", "Exact Team ID match");
    }
    var hasAt := HasChar(t, '@');
    var plain := !HasSpecial(t);
    var uid := UidLike(t);
    var words := Words(t);
    // The same pattern serves the team-name and the member-name clause.
    var np := if |words| > 1 then words else [t];
    assert np == NameParts(t);
    var filters := PushClauses(hasAt, plain, uid, t, np);
    SmartFilterIs(query, t, np);
    var filter := AnyOf(filters);
    r := SmartQuery(filter, "auto", "Smart multi-field search");
  }

  // ---------------------------------------------------------------------
  // Relevance
  // ---------------------------------------------------------------------

  predicate NameStarts(t: TeamDoc, lq: string) { StartsWith(ToLower(t.name), lq) }
  predicate ExactEmail(t: TeamDoc, lq: string) { exists k :: 0 <= k < |t.members| && ToLower(t.members[k].email) == lq }
  predicate NameContains(t: TeamDoc, lq: string) { Contains(ToLower(t.name), lq) }

  /** The comparator of `sortByRelevance`, tier by tier. */
  function Compare(a: TeamDoc, b: TeamDoc, lq: string): int
  {
    if NameStarts(a, lq) && !NameStarts(b, lq) then -1
    else if !NameStarts(a, lq) && NameStarts(b, lq) then 1
    else if ExactEmail(a, lq) && !ExactEmail(b, lq) then -1
    else if !ExactEmail(a, lq) && ExactEmail(b, lq) then 1
    else if NameContains(a, lq) && !NameContains(b, lq) then -1
    else if !NameContains(a, lq) && NameContains(b, lq) then 1
    else 0
  }

  /** The tier of a team: name prefix first, then exact member e-mail, then
      name substring. */
  function Rank(t: TeamDoc, lq: string): (r: nat)
    ensures r < 8
  {
    (if NameStarts(t, lq) then 0 else 4) + (if ExactEmail(t, lq) then 0 else 2) + (if NameContains(t, lq) then 0 else 1)
  }

  /** The comparator orders teams exactly by their tier, so it is a
      consistent comparator. */
  lemma CompareIsRankOrder(a: TeamDoc, b: TeamDoc, lq: string)
    ensures Compare(a, b, lq) < 0 <==> Rank(a, lq) < Rank(b, lq)
    ensures Compare(a, b, lq) == 0 <==> Rank(a, lq) == Rank(b, lq)
  {
  }

  function RelevanceLe(lq: string): (TeamDoc, TeamDoc) -> bool
  {
    (a: TeamDoc, b: TeamDoc) => Rank(a, lq) <= Rank(b, lq)
  }

  lemma RelevanceIsPreorder(lq: string)
    ensures TotalPreorder(RelevanceLe(lq))
  {
  }

  /** `query.toLowerCase().trim()`. */
  function LowerQuery(query: string): string
  {
    Trim(ToLower(query))
  }

  /** `sortByRelevance`: a stable sort by tier. */
  function SortByRelevance(teams: seq<TeamDoc>, query: string): (r: seq<TeamDoc>)
    ensures multiset(r) == multiset(teams)
    ensures forall i, j :: 0 <= i < j < |r| ==> Rank(r[i], LowerQuery(query)) <= Rank(r[j], LowerQuery(query))
  {
    var le := RelevanceLe(LowerQuery(query));
    RelevanceIsPreorder(LowerQuery(query));
    SortSorted(teams, le);
    SortPerm(teams, le);
    Sort(teams, le)
  }

  /** The tiers in words: a team whose name starts with the query comes
      before every team whose name does not; among those alike in that
      respect, an exact member e-mail comes first; then a name containing
      the query. */
  lemma RelevancePriority(teams: seq<TeamDoc>, query: string, i: nat, j: nat)
    requires i < j < |SortByRelevance(teams, query)|
    ensures var r := SortByRelevance(teams, query); var lq := LowerQuery(query);
      (NameStarts(r[j], lq) ==> NameStarts(r[i], lq)) &&
      (NameStarts(r[i], lq) == NameStarts(r[j], lq) && ExactEmail(r[j], lq) ==> ExactEmail(r[i], lq)) &&
      ((NameStarts(r[i], lq) == NameStarts(r[j], lq) && ExactEmail(r[i], lq) == ExactEmail(r[j], lq) &&
        NameContains(r[j], lq)) ==> NameContains(r[i], lq))
  {
  }

  /** Teams of the same tier keep the order the store returned them in. */
  lemma RelevanceStable(teams: seq<TeamDoc>, query: string, z: TeamDoc)
    ensures var le := RelevanceLe(LowerQuery(query));
      Filter(SortByRelevance(teams, query), y => Equiv(le, z, y)) == Filter(teams, y => Equiv(le, z, y))
  {
    RelevanceIsPreorder(LowerQuery(query));
    SortStable(teams, RelevanceLe(LowerQuery(query)), z);
  }

  // ---------------------------------------------------------------------
  // The handler
  // ---------------------------------------------------------------------

  /** One team in the response; missing counters read as 0. */
  datatype TeamSummary = TeamSummary(id: string, uid: string, name: string, members: seq<Member>,
    baseCredit: int, creditsUsed: int, credits: int, apiLimits: seq<ApiLimit>,
    followersTeamLimit: JsValue, followersRequestLimit: JsValue)

  function Summary(t: TeamDoc): (s: TeamSummary)
    ensures s.credits == s.baseCredit - s.creditsUsed == Available(t)
    ensures s.baseCredit == OrZero(t.baseCredit) && s.creditsUsed == OrZero(t.creditsUsed)
  {
    TeamSummary(t.id, t.uid, t.name, t.members, OrZero(t.baseCredit), OrZero(t.creditsUsed),
      OrZero(t.baseCredit) - OrZero(t.creditsUsed), if t.apiLimits.Some? then t.apiLimits.value else [],
      t.followersTeamLimit, t.followersRequestLimit)
  }

  function Project(ts: seq<TeamDoc>): (r: seq<TeamSummary>)
    ensures |r| == |ts| && forall k :: 0 <= k < |ts| ==> r[k] == Summary(ts[k])
  {
    seq(|ts|, k requires 0 <= k < |ts| => Summary(ts[k]))
  }

  datatype SearchResponse =
    | MissingQuery     // 400 'Search query is required'
    | InvalidType      // 400 'Invalid search type ...'
    | InvalidTeamId    // 400 'Invalid team ID format'
    | Results(searchType: string, description: string, teams: seq<TeamSummary>)

  /** `type || 'auto'`. */
  function SearchType(typeParam: string): string
  {
    if typeParam != "" then typeParam else "auto"
  }

  predicate KnownType(ty: string)
  {
    ty == "auto" || ty == "email" || ty == "name" || ty == "id"
  }

  /** The filter for a query and a known search type. Explicit types use the
      query as given, without trimming. */
  function FilterFor(query: string, ty: string): Query
  {
    if ty == "auto" then SmartFilter(query)
    else if ty == "email" then AnyOf([Clause(MemberEmail, [query])])
    else if ty == "name" then AnyOf([Clause(TeamName, [query])])
    else ById(query)
  }

  datatype Plan = Plan(filter: Query, searchType: string, description: string)

  /** The type dispatch: `auto` builds the smart query, the explicit types a
      single-field filter; an id must be 24 hex digits. */
  method Dispatch(q: string, ty: string) returns (plan: Option<Plan>)
    ensures plan.Some? <==> KnownType(ty) && (ty == "id" ==> Hex24(q))
    ensures plan.Some? ==> plan.value.filter == FilterFor(q, ty)
  {
    if ty == "auto" {
      var smart := BuildSmartQuery(q);
      return Some(Plan(smart.filter, smart.searchType, smart.description));
    } else if ty == "email" {
      return Some(Plan(AnyOf([Clause(MemberEmail, [q])]), ty, "Email search"));
    } else if ty == "name" {
      return Some(Plan(AnyOf([Clause(TeamName, [q])]), ty, "Team name search"));
    } else if ty == "id" {
      if !Hex24(q) {
        return None;
      }
      return Some(Plan(ById(q), ty, "Team ID search"));
    }
    return None;
  }

  /** The route skips sorting at most one team, which changes nothing. */
  lemma ShortListIsSorted(teams: seq<TeamDoc>, query: string)
    requires |teams| <= 1
    ensures SortByRelevance(teams, query) == teams
  {
    var r := SortByRelevance(teams, query);
    assert |r| == |multiset(r)| == |teams|;
    if |teams| == 1 {
      assert r[0] in multiset(teams);
    }
  }

  /** GET over the teams collection `docs`; `q` and `typeParam` are "" when
      absent. */
  method Get(docs: seq<TeamDoc>, q: string, typeParam: string) returns (resp: SearchResponse)
    ensures q == "" <==> resp == MissingQuery
    ensures resp == InvalidType <==> q != "" && !KnownType(SearchType(typeParam))
    ensures resp == InvalidTeamId <==> q != "" && SearchType(typeParam) == "id" && !Hex24(q)
    ensures resp.Results? ==>
      var ty := SearchType(typeParam);
      var found := Find(docs, FilterFor(q, ty));
      resp.teams == Project(if ty == "auto" then SortByRelevance(found, q) else found)
  {
    var ty := SearchType(typeParam);
    if q == "" {
      return MissingQuery;
    }
    var plan := Dispatch(q, ty);
    if plan.None? {
      return if ty == "id" then InvalidTeamId else InvalidType;
    }
    var teams := Find(docs, plan.value.filter);
    if ty == "auto" && |teams| > 1 {
      teams := SortByRelevance(teams, q);
    } else if ty == "auto" {
      ShortListIsSorted(teams, q);
    }
    resp := Results(plan.value.searchType, plan.value.description, Project(teams));
  }

  /** Every team in a result comes from the collection and matches the
      filter, at most 50 of them, whether or not they were reordered. */
  lemma ResultsMatch(docs: seq<TeamDoc>, f: Query, q: string, auto: bool)
    ensures var found := Find(docs, f);
      var out := if auto then SortByRelevance(found, q) else found;
      |out| <= 50 && forall k :: 0 <= k < |out| ==> out[k] in docs && Matches(f, out[k])
  {
    var found := Find(docs, f);
    var out := if auto then SortByRelevance(found, q) else found;
    if auto {
      SortMembers(found, RelevanceLe(LowerQuery(q)));
      SortLength(found, RelevanceLe(LowerQuery(q)));
    }
    forall k | 0 <= k < |out|
      ensures out[k] in docs && Matches(f, out[k])
    {
      var j :| 0 <= j < |found| && found[j] == out[k];
    }
  }
}
