/**
 * The content collection endpoint. GET lists content items: it builds a
 * database filter step by step (fixed and explicit conditions, free text, tag,
 * then the access rule for the caller), orders pinned items first and newest
 * first, and cuts one page. POST creates an item after an ordered series of
 * checks and fills in defaults.
 *
 * The database is a value here: users by email, memberships, and the stored
 * items; the filter is a predicate evaluated over that in-memory sequence.
 */
module ContentRoute {
  import opened Wrappers
  import opened JsStrings
  import opened ContentFields

  const ContentTypes: seq<string> := ["NOTE", "TWEET", "VIDEO", "DOCUMENT", "LINK", "IMAGE"]
  const Visibilities: seq<string> := ["PRIVATE", "ORGANIZATION", "PUBLIC"]

  /** The organisation list used when the caller belongs to none. */
  const NoOrgSentinel: string := "__NO__"

  /** `isValidContentType`: a string that is one of the six content types. */
  predicate IsValidContentType(v: JsValue)
    ensures IsValidContentType(v) ==> Truthy(v)
    ensures v == JStr("note") ==> !IsValidContentType(v)
  {
    v.JStr? && v.s in ContentTypes
  }

  datatype Status = Unauthorized | BadRequest(message: string) | Forbidden | ServerError

  function HttpCode(s: Status): int {
    match s
    case Unauthorized => 401
    case BadRequest(_) => 400
    case Forbidden => 403
    case ServerError => 500
  }

  datatype Tag = Tag(id: string, name: string)

  datatype ContentItem = ContentItem(
    id: string,
    kind: string,
    ownerId: string,
    organizationId: Option<string>,
    visibility: string,
    archived: bool,
    pinned: bool,
    updatedAt: int,
    title: string,
    excerpt: Option<string>,
    content: Option<string>,
    tags: seq<Tag>)

  datatype Membership = Membership(userId: string, organizationId: string)

  /** The stored state the endpoint reads: user ids by email, memberships and content items. */
  datatype Db = Db(users: map<string, string>, memberships: set<Membership>, items: seq<ContentItem>)

  /** The organisations a user belongs to. */
  function OrgIdsOf(db: Db, userId: string): set<string> {
    set m | m in db.memberships && m.userId == userId :: m.organizationId
  }

  /** A query-string parameter is used only when present and non-empty (JavaScript truthiness). */
  predicate Given(p: Option<string>) {
    p.Some? && p.value != ""
  }

  /**
   * The query string of a listing request. `page` and `perPage` are `None`
   * when absent or empty; otherwise the integer they spell.
   */
  datatype Query = Query(
    page: Option<int>,
    perPage: Option<int>,
    q: Option<string>,
    tag: Option<string>,
    kind: Option<string>,
    ownerId: Option<string>,
    organizationId: Option<string>,
    visibility: Option<string>)

  // ---------------------------------------------------------------------------
  // The filter object and what it selects
  // ---------------------------------------------------------------------------

  /** The filter's single `OR` slot: either the free-text search or the access rule. */
  datatype AnyOf =
    | TextSearch(text: string)
    | AccessGate(userId: string, orgIds: set<string>)

  /** The filter object, one field per key the endpoint may set. */
  datatype Where = Where(
    archived: bool,
    kind: Option<string>,
    ownerId: Option<string>,
    organizationId: Option<string>,
    visibility: Option<string>,
    anyOf: Option<AnyOf>,
    tag: Option<string>)

  /** Insensitive `contains` on a nullable column: a null column never matches. */
  predicate ColumnContains(col: Option<string>, text: string) {
    col.Some? && IncludesInsensitive(col.value, text)
  }

  predicate TextMatches(text: string, item: ContentItem) {
    IncludesInsensitive(item.title, text) || ColumnContains(item.excerpt, text) || ColumnContains(item.content, text)
  }

  /** Some attached tag has exactly this id, or a name containing it case-insensitively. */
  predicate TagMatches(t: string, item: ContentItem) {
    exists i | 0 <= i < |item.tags| :: item.tags[i].id == t || IncludesInsensitive(item.tags[i].name, t)
  }

  /**
   * How the database reads the access `OR` of the filter. It is kept apart
   * from `CanSee`, the read rule, because the filter's organisation list may
   * be the "__NO__" stand-in, which the read rule knows nothing about.
   */
  predicate GateMatches(userId: string, orgIds: set<string>, item: ContentItem) {
    || item.visibility == "PUBLIC"
    || item.ownerId == userId
    || (item.visibility == "ORGANIZATION" && item.organizationId.Some? && item.organizationId.value in orgIds)
  }

  predicate AnyOfMatches(a: AnyOf, item: ContentItem) {
    match a
    case TextSearch(text) => TextMatches(text, item)
    case AccessGate(userId, orgIds) => GateMatches(userId, orgIds, item)
  }

  /** Whether the database selects `item` for the filter `w`: every key present is a conjunct. */
  predicate Matches(w: Where, item: ContentItem) {
    && item.archived == w.archived
    && (w.kind.Some? ==> item.kind == w.kind.value)
    && (w.ownerId.Some? ==> item.ownerId == w.ownerId.value)
    && (w.organizationId.Some? ==> item.organizationId == w.organizationId)
    && (w.visibility.Some? ==> item.visibility == w.visibility.value)
    && (w.anyOf.Some? ==> AnyOfMatches(w.anyOf.value, item))
    && (w.tag.Some? ==> TagMatches(w.tag.value, item))
  }

  // ---------------------------------------------------------------------------
  // The listing policy, stated per kind of caller
  // ---------------------------------------------------------------------------

  /** A query parameter, when given, must equal the column. */
  predicate ExactIfGiven(p: Option<string>, col: string) {
    Given(p) ==> col == p.value
  }

  /** The read rule for a signed-in user: public items, their own, and organisation items of their organisations. */
  predicate CanSee(userId: string, orgIds: set<string>, item: ContentItem) {
    || item.visibility == "PUBLIC"
    || item.ownerId == userId
    || (item.visibility == "ORGANIZATION" && item.organizationId.Some? && item.organizationId.value in orgIds)
  }

  /**
   * Which items a listing request returns, case by case:
   * - every listing drops archived items and applies the type, owner,
   *   organisation and tag parameters exactly;
   * - a caller without a session sees public items only, whatever
   *   `visibility` asked for, filtered by the free text;
   * - a signed-in caller who names an owner or an organisation gets no
   *   access rule at all, only the parameters and the free text;
   * - any other signed-in caller sees what `CanSee` allows, and the free
   *   text is not applied.
   */
  predicate Listed(query: Query, session: Option<string>, db: Db, item: ContentItem) {
    && !item.archived
    && ExactIfGiven(query.kind, item.kind)
    && ExactIfGiven(query.ownerId, item.ownerId)
    && (Given(query.organizationId) ==> item.organizationId == query.organizationId)
    && (Given(query.tag) ==> TagMatches(query.tag.value, item))
    && if !Given(session) then
         item.visibility == "PUBLIC" && (Given(query.q) ==> TextMatches(query.q.value, item))
       else if Given(query.ownerId) || Given(query.organizationId) then
         ExactIfGiven(query.visibility, item.visibility) && (Given(query.q) ==> TextMatches(query.q.value, item))
       else
         && ExactIfGiven(query.visibility, item.visibility)
         && session.value in db.users
         && CanSee(db.users[session.value], OrgIdsOf(db, db.users[session.value]), item)
  }

  /** The request is refused with 401 when the session names no known user and no owner or organisation is given. */
  predicate UnknownGatedCaller(query: Query, session: Option<string>, db: Db) {
    Given(session) && !Given(query.ownerId) && !Given(query.organizationId) && session.value !in db.users
  }

  /** The filter selects exactly the listed items, whatever the item. */
  ghost predicate SelectsListed(w: Where, query: Query, session: Option<string>, db: Db) {
    forall item: ContentItem :: Matches(w, item) <==> Listed(query, session, db, item)
  }

  /** The filter selects exactly the listed items, organisation ids equal to the sentinel aside. */
  ghost predicate ImplementsPolicy(w: Where, query: Query, session: Option<string>, db: Db) {
    forall item: ContentItem :: item.organizationId != Some(NoOrgSentinel) ==>
      (Matches(w, item) <==> Listed(query, session, db, item))
  }

  /** A parameter kept only when given: an empty string counts as absent. */
  function IfGiven(p: Option<string>): (r: Option<string>)
    ensures r.Some? <==> Given(p)
    ensures r.Some? ==> r == p
  {
    if Given(p) then p else None
  }

  /** The part of the filter every request shares: unarchived items and the explicit parameters. */
  predicate CarriesParameters(w: Where, query: Query) {
    && !w.archived
    && w.kind == IfGiven(query.kind)
    && w.ownerId == IfGiven(query.ownerId)
    && w.organizationId == IfGiven(query.organizationId)
    && w.tag == IfGiven(query.tag)
  }

  function TextFilter(query: Query): Option<AnyOf> {
    if Given(query.q) then Some(TextSearch(query.q.value)) else None
  }

  /** Without a session the filter forces public visibility and keeps the free text. */
  lemma AnonymousFilter(w: Where, query: Query, db: Db)
    requires CarriesParameters(w, query) && w.visibility == Some("PUBLIC") && w.anyOf == TextFilter(query)
    ensures SelectsListed(w, query, None, db)
    ensures ImplementsPolicy(w, query, None, db)
  {
  }

  /** With a session and an owner or organisation parameter the filter has no access rule. */
  lemma ExplicitFilter(w: Where, query: Query, session: Option<string>, db: Db)
    requires Given(session) && (Given(query.ownerId) || Given(query.organizationId))
    requires CarriesParameters(w, query) && w.visibility == IfGiven(query.visibility) && w.anyOf == TextFilter(query)
    ensures SelectsListed(w, query, session, db)
    ensures ImplementsPolicy(w, query, session, db)
  {
  }

  /** Otherwise the access rule replaces the free text; the sentinel stands in for an empty organisation list. */
  lemma GatedFilter(w: Where, query: Query, session: Option<string>, db: Db)
    requires Given(session) && !Given(query.ownerId) && !Given(query.organizationId) && session.value in db.users
    requires CarriesParameters(w, query) && w.visibility == IfGiven(query.visibility)
    requires var uid := db.users[session.value];
      var orgIds := OrgIdsOf(db, uid);
      w.anyOf == Some(AccessGate(uid, if orgIds == {} then {NoOrgSentinel} else orgIds))
    ensures ImplementsPolicy(w, query, session, db)
  {
  }

  /**
   * The filter the GET handler ends up with, stated as a whole: the
   * parameters, then PUBLIC forced for an anonymous caller, nothing more for
   * a caller naming an owner or organisation, and otherwise the access rule
   * in the `OR` slot (with "__NO__" for an empty organisation list).
   */
  function WhereFor(query: Query, session: Option<string>, db: Db): (w: Where)
    requires !UnknownGatedCaller(query, session, db)
    ensures CarriesParameters(w, query)
    ensures !Given(session) ==> w.visibility == Some("PUBLIC") && w.anyOf == TextFilter(query)
    ensures Given(session) ==> w.visibility == IfGiven(query.visibility)
    ensures Given(session) && (Given(query.ownerId) || Given(query.organizationId)) ==> w.anyOf == TextFilter(query)
    ensures Given(session) && !Given(query.ownerId) && !Given(query.organizationId) ==>
      w.anyOf.Some? && w.anyOf.value.AccessGate? && w.anyOf.value.orgIds != {}
  {
    var base := Where(false, IfGiven(query.kind), IfGiven(query.ownerId), IfGiven(query.organizationId),
                      IfGiven(query.visibility), TextFilter(query), IfGiven(query.tag));
    if !Given(session) then base.(visibility := Some("PUBLIC"))
    else if Given(query.ownerId) || Given(query.organizationId) then base
    else
      var uid := db.users[session.value];
      var orgIds := OrgIdsOf(db, uid);
      base.(anyOf := Some(AccessGate(uid, if orgIds == {} then {NoOrgSentinel} else orgIds)))
  }

  /** The database rejects a `type` or `visibility` outside its enumerations. */
  predicate OutsideEnums(w: Where) {
    (w.kind.Some? && w.kind.value !in ContentTypes) || (w.visibility.Some? && w.visibility.value !in Visibilities)
  }

  /** The whole filter selects exactly the listed items, for each kind of caller. */
  lemma WhereForImplementsPolicy(query: Query, session: Option<string>, db: Db)
    requires !UnknownGatedCaller(query, session, db)
    ensures ImplementsPolicy(WhereFor(query, session, db), query, session, db)
  {
    var w := WhereFor(query, session, db);
    if !Given(session) {
      AnonymousFilter(w, query, db);
    } else if Given(query.ownerId) || Given(query.organizationId) {
      ExplicitFilter(w, query, session, db);
    } else {
      GatedFilter(w, query, session, db);
    }
  }

  /** The GET handler's filter construction, in the handler's order, overwrites included. */
  method BuildWhere(query: Query, session: Option<string>, db: Db) returns (r: Result<Where, Status>)
    ensures r.Failure? <==> UnknownGatedCaller(query, session, db)
    ensures r.Failure? ==> r.error == Unauthorized
    ensures r.Success? ==> r.value == WhereFor(query, session, db)
    ensures r.Success? ==> !r.value.archived
    ensures r.Success? ==> ImplementsPolicy(r.value, query, session, db)
    ensures r.Success? && Given(session) && !Given(query.ownerId) && !Given(query.organizationId)
            && OrgIdsOf(db, db.users[session.value]) == {} ==>
      r.value.anyOf == Some(AccessGate(db.users[session.value], {NoOrgSentinel}))
  {
    var w := Where(false, None, None, None, None, None, None);
    if Given(query.kind) { w := w.(kind := query.kind); }
    assert w == Where(false, IfGiven(query.kind), None, None, None, None, None);
    if Given(query.ownerId) { w := w.(ownerId := query.ownerId); }
    assert w == Where(false, IfGiven(query.kind), IfGiven(query.ownerId), None, None, None, None);
    if Given(query.organizationId) { w := w.(organizationId := query.organizationId); }
    assert w == Where(false, IfGiven(query.kind), IfGiven(query.ownerId), IfGiven(query.organizationId), None, None, None);
    if Given(query.visibility) { w := w.(visibility := query.visibility); }
    assert w.visibility == IfGiven(query.visibility);
    if Given(query.q) { w := w.(anyOf := Some(TextSearch(query.q.value))); }
    assert w.anyOf == TextFilter(query);
    if Given(query.tag) { w := w.(tag := query.tag); }
    assert CarriesParameters(w, query) && w.anyOf == TextFilter(query) && w.visibility == IfGiven(query.visibility);

    if !Given(session) {
      w := w.(visibility := Some("PUBLIC"));
    } else if !Given(query.ownerId) && !Given(query.organizationId) {
      if session.value !in db.users {
        return Failure(Unauthorized);
      }
      var userId := db.users[session.value];
      var orgIds := OrgIdsOf(db, userId);
      w := w.(anyOf := Some(AccessGate(userId, if orgIds == {} then {NoOrgSentinel} else orgIds)));
    }
    assert w == WhereFor(query, session, db);
    WhereForImplementsPolicy(query, session, db);
    r := Success(w);
  }

  /** An anonymous caller sees only public items, even when asking for private ones. */
  lemma AnonymousSeesOnlyPublic(query: Query, db: Db, item: ContentItem)
    requires Listed(query, None, db, item)
    ensures item.visibility == "PUBLIC" && !item.archived
  {
  }

  lemma AnonymousPrivateRequestIgnored(query: Query, db: Db, item: ContentItem)
    requires query.visibility == Some("PRIVATE")
    ensures Listed(query, None, db, item) == Listed(query.(visibility := None), None, db, item)
  {
  }

  /**
   * Without owner or organisation parameters, a signed-in caller gets an item
   * exactly when it is unarchived, passes the explicit parameters, and is
   * public, their own, or an organisation item of one of their organisations.
   */
  lemma SignedInGate(query: Query, email: string, db: Db, item: ContentItem)
    requires email != "" && email in db.users
    requires !Given(query.ownerId) && !Given(query.organizationId)
    requires !Given(query.kind) && !Given(query.visibility) && !Given(query.tag)
    ensures Listed(query, Some(email), db, item) <==>
      !item.archived &&
      (item.visibility == "PUBLIC" || item.ownerId == db.users[email] ||
       (item.visibility == "ORGANIZATION" && item.organizationId.Some? &&
        Membership(db.users[email], item.organizationId.value) in db.memberships))
  {
    var uid := db.users[email];
    if item.organizationId.Some? && Membership(uid, item.organizationId.value) in db.memberships {
      assert item.organizationId.value in OrgIdsOf(db, uid);
    }
  }

  /** A private item of someone else is never listed to a signed-in caller without owner or organisation parameters. */
  lemma PrivateOfOthersHidden(query: Query, email: string, db: Db, item: ContentItem)
    requires email != "" && !Given(query.ownerId) && !Given(query.organizationId)
    requires item.visibility == "PRIVATE"
    requires email in db.users ==> item.ownerId != db.users[email]
    ensures !Listed(query, Some(email), db, item)
  {
  }

  /** Naming an owner or an organisation drops the access rule: only the explicit filters apply. */
  lemma ExplicitFilterBypassesGate(query: Query, email: string, db: Db, item: ContentItem)
    requires email != "" && (Given(query.ownerId) || Given(query.organizationId))
    requires !Given(query.q) && !Given(query.kind) && !Given(query.visibility) && !Given(query.tag)
    ensures Listed(query, Some(email), db, item) <==>
      !item.archived &&
      ExactIfGiven(query.ownerId, item.ownerId) &&
      (Given(query.organizationId) ==> item.organizationId == query.organizationId)
  {
  }

  /** Concretely: a member of no organisation still lists a private item of another user by naming its organisation. */
  lemma OrganizationFilterShowsPrivate(email: string, db: Db)
    requires email != "" && email in db.users && db.users[email] != "u2"
    ensures var item := ContentItem("i1", "NOTE", "u2", Some("org-1"), "PRIVATE", false, false, 0, "t", None, None, []);
            Listed(Query(None, None, None, None, None, None, Some("org-1"), None), Some(email), db, item)
  {
  }

  /** For a signed-in caller subject to the access rule, the free text does not affect the result. */
  lemma SearchTextDiscarded(query: Query, email: string, db: Db, item: ContentItem, other: Option<string>)
    requires email != "" && !Given(query.ownerId) && !Given(query.organizationId)
    ensures Listed(query, Some(email), db, item) == Listed(query.(q := other), Some(email), db, item)
  {
  }

  /** Concretely: searching "zebra" still lists the caller's own item titled "apple". */
  lemma SearchTextDiscardedExample(email: string, db: Db)
    requires email != "" && email in db.users
    ensures var item := ContentItem("i1", "NOTE", db.users[email], None, "PRIVATE", false, false, 0, "apple", None, None, []);
            Listed(Query(None, None, Some("zebra"), None, None, None, None, None), Some(email), db, item)
            && !TextMatches("zebra", item)
  {
    assert !Includes(Lower("apple"), Lower("zebra")) by {
      assert Lower("apple")[0] == 'a' && Lower("zebra")[0] == 'z';
      forall i | 0 <= i <= 5 ensures !StartsWith(Lower("apple")[i..], Lower("zebra")) {
        if i == 0 {
          NotStartsWith(Lower("apple"), Lower("zebra"), 0);
        }
      }
    }
  }

  /**
   * The sentinel list is an ordinary organisation id to the database: with no
   * memberships, an organisation item whose organisation id is "__NO__" passes
   * the access rule built for the caller.
   */
  lemma SentinelOrganizationPasses(userId: string, item: ContentItem)
    requires item.visibility == "ORGANIZATION" && item.organizationId == Some(NoOrgSentinel)
    ensures GateMatches(userId, {NoOrgSentinel}, item)
    ensures !CanSee(userId, {}, item) || item.ownerId == userId
  {
  }

  // ---------------------------------------------------------------------------
  // Ordering and pagination
  // ---------------------------------------------------------------------------

  /** `orderBy: [{ pinned: "desc" }, { updatedAt: "desc" }]`: `a` may precede `b`. */
  predicate ListedBefore(a: ContentItem, b: ContentItem) {
    (a.pinned && !b.pinned) || (a.pinned == b.pinned && a.updatedAt >= b.updatedAt)
  }

  predicate InListingOrder(s: seq<ContentItem>) {
    forall i, j :: 0 <= i < j < |s| ==> ListedBefore(s[i], s[j])
  }

  function Insert(x: ContentItem, s: seq<ContentItem>): (r: seq<ContentItem>)
    requires InListingOrder(s)
    ensures InListingOrder(r)
    ensures multiset(r) == multiset(s) + multiset{x}
  {
    if s == [] then [x]
    else if ListedBefore(x, s[0]) then [x] + s
    else
      var rest := Insert(x, s[1..]);
      HeadPrecedesInsert(x, s, rest);
      assert s == [s[0]] + s[1..];
      [s[0]] + rest
  }

  /** When `x` does not go first, the old head may precede everything the insertion produced. */
  lemma HeadPrecedesInsert(x: ContentItem, s: seq<ContentItem>, rest: seq<ContentItem>)
    requires s != [] && InListingOrder(s) && !ListedBefore(x, s[0])
    requires multiset(rest) == multiset(s[1..]) + multiset{x}
    ensures forall k :: 0 <= k < |rest| ==> ListedBefore(s[0], rest[k])
  {
    forall k | 0 <= k < |rest| ensures ListedBefore(s[0], rest[k]) {
      assert rest[k] in multiset(rest);
      if rest[k] != x {
        assert rest[k] in multiset(s[1..]);
        var j :| 0 <= j < |s[1..]| && s[1..][j] == rest[k];
        assert s[j + 1] == rest[k];
      }
    }
  }

  /** The database's ordering, taken as stable on the stored order among ties. */
  function SortForListing(s: seq<ContentItem>): (r: seq<ContentItem>)
    ensures InListingOrder(r)
    ensures multiset(r) == multiset(s)
  {
    if s == [] then []
    else
      assert s == [s[0]] + s[1..];
      Insert(s[0], SortForListing(s[1..]))
  }

  /** In listing order every pinned item comes before every unpinned one. */
  lemma PinnedFirst(s: seq<ContentItem>, i: int, j: int)
    requires InListingOrder(s) && 0 <= i < |s| && 0 <= j < |s|
    requires s[j].pinned && !s[i].pinned
    ensures j < i
  {
  }

  /** `Math.max(1, Number(q.page || 1))`. */
  function PageNumber(p: Option<int>): (r: int)
    ensures r >= 1
    ensures p.None? ==> r == 1
    ensures p.Some? && p.value >= 1 ==> r == p.value
    ensures p.Some? && p.value < 1 ==> r == 1
  {
    if p.None? then 1 else if p.value < 1 then 1 else p.value
  }

  /** `Math.min(100, Math.max(5, Number(q.perPage || 20)))`. */
  function PageSize(p: Option<int>): (r: int)
    ensures 5 <= r <= 100
    ensures p.None? ==> r == 20
    ensures p.Some? && 5 <= p.value <= 100 ==> r == p.value
    ensures p.Some? && p.value < 5 ==> r == 5
    ensures p.Some? && p.value > 100 ==> r == 100
  {
    var n := if p.None? then 20 else p.value;
    if n < 5 then 5 else if n > 100 then 100 else n
  }

  /** `Math.ceil(total / perPage)`: the fewest pages of `perPage` items that hold `total` items. */
  function TotalPages(total: nat, perPage: int): (r: nat)
    requires perPage >= 1
    ensures r * perPage >= total
    ensures r > 0 ==> (r - 1) * perPage < total
  {
    var q := total / perPage;
    if q * perPage == total then q else q + 1
  }

  /** `(page - 1) * perPage`: the items before the requested page. */
  function Skip(page: int, perPage: int): (r: nat)
    requires page >= 1 && perPage >= 1
    ensures page == 1 ==> r == 0
    ensures page > 1 ==> r >= perPage
  {
    (page - 1) * perPage
  }

  /** `skip: (page - 1) * perPage, take: perPage` on an ordered result. */
  function Window(s: seq<ContentItem>, skip: nat, take: nat): (r: seq<ContentItem>)
    ensures |r| == if skip >= |s| then 0 else if skip + take <= |s| then take else |s| - skip
    ensures forall i :: 0 <= i < |r| ==> r[i] == s[skip + i]
  {
    if skip >= |s| then [] else if skip + take <= |s| then s[skip..skip + take] else s[skip..]
  }

  /** A page of an ordering of `s` is in listing order and holds only items of `s`. */
  lemma WindowOfOrdered(s: seq<ContentItem>, ordered: seq<ContentItem>, skip: nat, take: nat)
    requires InListingOrder(ordered) && multiset(ordered) == multiset(s)
    ensures InListingOrder(Window(ordered, skip, take))
    ensures forall x :: x in Window(ordered, skip, take) ==> x in s
  {
    forall x | x in Window(ordered, skip, take) ensures x in s {
      assert x in multiset(ordered);
    }
  }

  /** The items a filter selects, in stored order. */
  function Select(w: Where, items: seq<ContentItem>): (r: seq<ContentItem>)
    ensures forall x :: x in r <==> x in items && Matches(w, x)
  {
    if items == [] then []
    else (if Matches(w, items[0]) then [items[0]] else []) + Select(w, items[1..])
  }

  /** The items the listing policy lets through, in stored order. */
  function ListedItems(query: Query, session: Option<string>, db: Db, items: seq<ContentItem>): (r: seq<ContentItem>)
    ensures forall x :: x in r <==> x in items && Listed(query, session, db, x)
  {
    if items == [] then []
    else (if Listed(query, session, db, items[0]) then [items[0]] else [])
         + ListedItems(query, session, db, items[1..])
  }

  predicate SentinelFree(items: seq<ContentItem>) {
    forall x :: x in items ==> x.organizationId != Some(NoOrgSentinel)
  }

  lemma {:induction false} SelectIsListed(w: Where, query: Query, session: Option<string>, db: Db, items: seq<ContentItem>)
    requires ImplementsPolicy(w, query, session, db) && SentinelFree(items)
    ensures Select(w, items) == ListedItems(query, session, db, items)
  {
    if items != [] {
      assert items[0] in items;
      SelectIsListed(w, query, session, db, items[1..]);
    }
  }

  datatype Meta = Meta(total: nat, page: int, perPage: int, totalPages: nat)
  datatype Listing = Listing(data: seq<ContentItem>, meta: Meta)

  /**
   * GET: refuse an unknown signed-in user, let the database reject a type or
   * visibility outside its enumerations, then return one page of the ordered
   * selection and the totals.
   */
  method ListContent(query: Query, session: Option<string>, db: Db) returns (r: Result<Listing, Status>)
    ensures UnknownGatedCaller(query, session, db) ==> r == Failure(Unauthorized)
    ensures r.Failure? ==> r.error == Unauthorized || r.error == ServerError
    ensures !UnknownGatedCaller(query, session, db) ==>
      (r == Failure(ServerError) <==> OutsideEnums(WhereFor(query, session, db)))
    ensures !UnknownGatedCaller(query, session, db) && !OutsideEnums(WhereFor(query, session, db)) ==> r.Success?
    ensures r.Success? ==>
      var selected := Select(WhereFor(query, session, db), db.items);
      && r.value.meta.total == |selected|
      && r.value.data == Window(SortForListing(selected), Skip(PageNumber(query.page), PageSize(query.perPage)), PageSize(query.perPage))
    ensures r.Success? ==>
      && r.value.meta.page == PageNumber(query.page)
      && r.value.meta.perPage == PageSize(query.perPage)
      && |r.value.data| <= r.value.meta.perPage
      && InListingOrder(r.value.data)
      && r.value.meta.totalPages == TotalPages(r.value.meta.total, r.value.meta.perPage)
      && forall x :: x in r.value.data ==> x in db.items && !x.archived
    ensures r.Success? && SentinelFree(db.items) ==>
      var all := ListedItems(query, session, db, db.items);
      && r.value.meta.total == |all|
      && r.value.data == Window(SortForListing(all), Skip(r.value.meta.page, r.value.meta.perPage), r.value.meta.perPage)
  {
    var built := BuildWhere(query, session, db);
    if built.Failure? {
      return Failure(built.error);
    }
    var w := built.value;
    if OutsideEnums(w) {
      return Failure(ServerError);
    }
    var page := PageNumber(query.page);
    var perPage := PageSize(query.perPage);
    var selected := Select(w, db.items);
    var ordered := SortForListing(selected);
    var skip := Skip(page, perPage);
    var data := Window(ordered, skip, perPage);
    WindowOfOrdered(selected, ordered, skip, perPage);
    assert forall x :: x in selected ==> x in db.items && !x.archived;
    if SentinelFree(db.items) {
      SelectIsListed(w, query, session, db, db.items);
    }
    r := Success(Listing(data, Meta(|selected|, page, perPage, TotalPages(|selected|, perPage))));
  }

  // ---------------------------------------------------------------------------
  // Creation
  // ---------------------------------------------------------------------------

  /**
   * A POST body: JSON fields (a `null` body reads as no fields), multipart
   * text fields still to be unwrapped, or a body `req.json()` cannot parse.
   */
  datatype Body = JsonBody(fields: Fields) | MultipartBody(form: map<string, FormField>) | UnparsableBody

  /** The fields the handler reads, after unwrapping a multipart body. */
  function FieldsOf(body: Body): Fields {
    match body
    case JsonBody(fields) => fields
    case MultipartBody(form) => map k | k in form :: Unwrapped(form[k])
    case UnparsableBody => map[]
  }

  /** `fields.x ? String(fields.x) : undefined`. */
  function OptionalString(fields: Fields, key: string): (r: Option<string>)
    ensures r.Some? <==> Truthy(Field(fields, key))
    ensures r.Some? ==> r.value == ToJsString(Field(fields, key))
  {
    if Truthy(Field(fields, key)) then Some(ToJsString(Field(fields, key))) else None
  }

  /** `fields.x === "true" || fields.x === true`. */
  predicate FlagSet(fields: Fields, key: string)
    ensures FlagSet(fields, key) ==> Truthy(Field(fields, key))
    ensures Field(fields, key) in {JStr("TRUE"), JStr("1"), JNum(1)} ==> !FlagSet(fields, key)
  {
    Field(fields, key) == JStr("true") || Field(fields, key) == JBool(true)
  }

  /** The row the handler asks the database to create. */
  datatype NewContent = NewContent(
    title: string,
    excerpt: Option<string>,
    content: Option<string>,
    url: Option<string>,
    kind: string,
    visibility: string,
    pinned: bool,
    archived: bool,
    published: bool,
    ownerId: string,
    organizationId: Option<string>,
    tagIds: seq<string>)

  predicate HasTitle(fields: Fields) {
    OptionalString(fields, "title").Some? && OptionalString(fields, "title").value != ""
  }

  /** An organisation id to check: truthy, and non-empty once converted to a string. */
  predicate NamesOrganization(fields: Fields) {
    OptionalString(fields, "organizationId").Some? && OptionalString(fields, "organizationId").value != ""
  }

  predicate IsMember(db: Db, userId: string, orgId: string) {
    Membership(userId, orgId) in db.memberships
  }

  /** `fields.visibility ? String(fields.visibility) : "PRIVATE"`. */
  function VisibilityField(fields: Fields): (v: string)
    ensures !Truthy(Field(fields, "visibility")) ==> v == "PRIVATE"
    ensures Truthy(Field(fields, "visibility")) ==> v == ToJsString(Field(fields, "visibility"))
  {
    if Truthy(Field(fields, "visibility")) then ToJsString(Field(fields, "visibility")) else "PRIVATE"
  }

  /** Every check of the handler passes and the database accepts the visibility. */
  predicate Creatable(session: Option<string>, db: Db, body: Body) {
    var fields := FieldsOf(body);
    && Given(session) && session.value in db.users
    && !body.UnparsableBody?
    && HasTitle(fields)
    && IsValidContentType(Field(fields, "type"))
    && (NamesOrganization(fields) ==> IsMember(db, db.users[session.value], OptionalString(fields, "organizationId").value))
    && VisibilityField(fields) in Visibilities
  }

  /**
   * POST: 401 without a known user, then 400 without a title, then 400 for a
   * bad type, then 403 for an organisation the user is not a member of; the
   * database rejects a visibility outside its enumeration. On success the
   * owner is the caller, the visibility defaults to PRIVATE and the three
   * flags are set only by "true" or true.
   */
  method CreateContent(session: Option<string>, db: Db, body: Body, parse: JsonParser)
    returns (r: Result<NewContent, Status>)
    ensures !Given(session) || session.value !in db.users ==> r == Failure(Unauthorized)
    ensures Given(session) && session.value in db.users && body.UnparsableBody? ==> r == Failure(ServerError)
    ensures Creatable(session, db, body) <==> r.Success?
    ensures Given(session) && session.value in db.users && !body.UnparsableBody?
            && HasTitle(FieldsOf(body)) && IsValidContentType(Field(FieldsOf(body), "type"))
            && (NamesOrganization(FieldsOf(body)) ==>
                  IsMember(db, db.users[session.value], OptionalString(FieldsOf(body), "organizationId").value))
            && VisibilityField(FieldsOf(body)) !in Visibilities ==>
      r == Failure(ServerError)
    ensures Given(session) && session.value in db.users && !body.UnparsableBody? ==>
      var fields := FieldsOf(body);
      var actor := db.users[session.value];
      && (!HasTitle(fields) ==> r == Failure(BadRequest("Title is required")))
      && (HasTitle(fields) && !IsValidContentType(Field(fields, "type")) ==>
            r == Failure(BadRequest("Invalid or missing content type")))
      && (HasTitle(fields) && IsValidContentType(Field(fields, "type")) && NamesOrganization(fields)
            && !IsMember(db, actor, OptionalString(fields, "organizationId").value) ==>
            r == Failure(Forbidden))
    ensures r.Success? ==>
      var fields := FieldsOf(body);
      && Given(session) && session.value in db.users
      && r.value.ownerId == db.users[session.value]
      && r.value.title != "" && r.value.kind in ContentTypes
      && Some(r.value.title) == OptionalString(fields, "title")
      && r.value.excerpt == OptionalString(fields, "excerpt")
      && r.value.content == OptionalString(fields, "content")
      && r.value.url == OptionalString(fields, "url")
      && Field(fields, "type") == JStr(r.value.kind)
      && r.value.visibility in Visibilities
      && r.value.visibility == VisibilityField(fields)
      && (!Truthy(Field(fields, "visibility")) ==> r.value.visibility == "PRIVATE")
      && (r.value.pinned <==> FlagSet(fields, "pinned"))
      && (r.value.archived <==> FlagSet(fields, "archived"))
      && (r.value.published <==> FlagSet(fields, "published"))
      && r.value.organizationId == OptionalString(fields, "organizationId")
      && (NamesOrganization(fields) ==> IsMember(db, r.value.ownerId, r.value.organizationId.value))
      && (var t := NormalizeTagIds(Field(fields, "tagIds"), parse); r.value.tagIds == if t.Some? then t.value else [])
    ensures r.Failure? && r.error == ServerError ==>
      Given(session) && session.value in db.users &&
      (body.UnparsableBody? || OptionalString(FieldsOf(body), "visibility").Some?)
  {
    if !Given(session) || session.value !in db.users {
      return Failure(Unauthorized);
    }
    var actor := db.users[session.value];

    var fields: Fields;
    match body {
      case JsonBody(fs) =>
        fields := fs;
        assert fields == FieldsOf(body);
      case MultipartBody(form) =>
        fields := NormalizeFields(form);
        assert fields == FieldsOf(body);
      case UnparsableBody =>
        return Failure(ServerError);
    }

    var title := OptionalString(fields, "title");
    var excerpt := OptionalString(fields, "excerpt");
    var content := OptionalString(fields, "content");
    var url := OptionalString(fields, "url");
    var typeRaw := Field(fields, "type");
    var visibility := VisibilityField(fields);
    var pinned := FlagSet(fields, "pinned");
    var archived := FlagSet(fields, "archived");
    var published := FlagSet(fields, "published");
    var organizationId := OptionalString(fields, "organizationId");
    var tagIds := NormalizeTagIds(Field(fields, "tagIds"), parse);

    if title.None? || title.value == "" {
      return Failure(BadRequest("Title is required"));
    }
    if !Truthy(typeRaw) || !IsValidContentType(typeRaw) {
      return Failure(BadRequest("Invalid or missing content type"));
    }
    if organizationId.Some? && organizationId.value != "" {
      if !IsMember(db, actor, organizationId.value) {
        return Failure(Forbidden);
      }
    }
    if visibility !in Visibilities {
      return Failure(ServerError);
    }
    r := Success(NewContent(title.value, excerpt, content, url, typeRaw.s, visibility, pinned, archived, published,
                            actor, organizationId, if tagIds.Some? then tagIds.value else []));
  }
}
