/**
 * The parlour endpoints (backend/src/controllers/gamingParlour.js): the search query built
 * step by step from the query string, its meaning as a filter on parlours, and create,
 * update and delete with the owner-or-admin rule.
 */
module ParlourController {
  import opened Wrappers
  import opened TimeOfDay
  import opened ParlourSchema
  import opened BookingController
  import Sequences

  // ================================================================ text helpers

  /** `s.split(c)`: the pieces between the separators, at least one. */
  function Split(s: string, c: char): (r: seq<string>)
    ensures |r| >= 1
    ensures forall i :: 0 <= i < |r| ==> c !in r[i]
    decreases |s|
  {
    var head := UpTo(s, c);
    if |head| == |s| then [s] else [head] + Split(s[|head| + 1..], c)
  }

  /** `parts.join(c)`. */
  function Join(parts: seq<string>, c: char): string
    requires |parts| >= 1
  {
    if |parts| == 1 then parts[0] else parts[0] + [c] + Join(parts[1..], c)
  }

  /** Splitting loses nothing: joining the pieces again gives the text back. */
  lemma {:induction false} JoinSplit(s: string, c: char)
    ensures Join(Split(s, c), c) == s
    decreases |s|
  {
    var head := UpTo(s, c);
    if |head| < |s| {
      var rest := s[|head| + 1..];
      JoinSplit(rest, c);
      assert Split(s, c)[1..] == Split(rest, c);
      assert s == head + [c] + rest;
    }
  }

  /** Pieces without the separator are exactly what splitting their join gives. */
  lemma {:induction false} SplitJoin(parts: seq<string>, c: char)
    requires |parts| >= 1
    requires forall i :: 0 <= i < |parts| ==> c !in parts[i]
    ensures Split(Join(parts, c), c) == parts
  {
    var p0 := parts[0];
    UpToAbsent(p0, c);
    if |parts| > 1 {
      var rest := Join(parts[1..], c);
      var s := Join(parts, c);
      assert s == p0 + ([c] + rest);
      UpToPrefix(p0, c, [c] + rest);
      assert UpTo(s, c) == p0;
      assert s[|p0| + 1..] == rest;
      SplitJoin(parts[1..], c);
      assert Split(s, c) == [p0] + Split(rest, c);
      assert [p0] + parts[1..] == parts;
    }
  }

  /** `split` stops at the first separator after a piece that has none. */
  lemma {:induction false} UpToPrefix(p: string, c: char, rest: string)
    requires c !in p && |rest| > 0 && rest[0] == c
    ensures UpTo(p + rest, c) == p
  {
    if p == [] {
      assert p + rest == rest;
    } else {
      assert (p + rest)[0] == p[0] && (p + rest)[1..] == p[1..] + rest;
      UpToPrefix(p[1..], c, rest);
      assert [p[0]] + p[1..] == p;
    }
  }

  /** ASCII lower case, the case folding of `$options: 'i'` on Latin letters. */
  function Lower(c: char): char
  {
    if 'A' <= c <= 'Z' then (c as int + 32) as char else c
  }

  function LowerText(s: string): (r: string)
    ensures |r| == |s| && forall i :: 0 <= i < |s| ==> r[i] == Lower(s[i])
  {
    seq(|s|, i requires 0 <= i < |s| => Lower(s[i]))
  }

  /** `t` contains `p` as a contiguous piece: `p` is a prefix of some suffix of `t`. */
  predicate Contains(t: string, p: string)
  {
    exists i :: 0 <= i <= |t| && p <= t[i..]
  }

  /** `{ $regex: p, $options: 'i' }` for a pattern without metacharacters: case-insensitive containment. */
  predicate ContainsIgnoreCase(t: string, p: string)
  {
    Contains(LowerText(t), LowerText(p))
  }

  // ================================================================ search

  /** `req.query`: each parameter absent (or empty) or given; prices already read as numbers. */
  datatype SearchParams = SearchParams(
    q: Option<string>,
    location: Option<string>,
    minPrice: Option<real>,
    maxPrice: Option<real>,
    consoles: Option<string>)

  /** A string query parameter is truthy when it is present and not empty. */
  predicate Truthy(s: Option<string>)
  {
    s.Some? && s.value != ""
  }

  datatype PriceRange = PriceRange(gte: Option<real>, lte: Option<real>)

  /** The Mongo filter `query`; every part is optional and the parts are ANDed. */
  datatype Query = Query(
    text: Option<string>,
    location: Option<string>,
    price: Option<PriceRange>,
    consoles: Option<seq<string>>)

  const EmptyQuery := Query(None, None, None, None)

  /** What a parlour must satisfy for `GamingParlour.find(query)` to return it. */
  predicate Matches(query: Query, p: Parlour)
  {
    && (query.text.Some? ==>
          ContainsIgnoreCase(p.name, query.text.value) || ContainsIgnoreCase(p.description, query.text.value))
    && (query.location.Some? ==> ContainsIgnoreCase(p.location, query.location.value))
    && (query.price.Some? ==>
          && (query.price.value.gte.Some? ==> p.price >= query.price.value.gte.value)
          && (query.price.value.lte.Some? ==> p.price <= query.price.value.lte.value))
    && (query.consoles.Some? ==>
          exists i :: 0 <= i < |query.consoles.value| && query.consoles.value[i] in p.consoles)
  }

  /** The search as the endpoint describes it, stated on the parameters directly. */
  predicate SearchSpec(params: SearchParams, p: Parlour)
  {
    && (Truthy(params.q) ==> ContainsIgnoreCase(p.name, params.q.value) || ContainsIgnoreCase(p.description, params.q.value))
    && (Truthy(params.location) ==> ContainsIgnoreCase(p.location, params.location.value))
    && (params.minPrice.Some? ==> p.price >= params.minPrice.value)
    && (params.maxPrice.Some? ==> p.price <= params.maxPrice.value)
    && (Truthy(params.consoles) ==>
          exists i :: 0 <= i < |Split(params.consoles.value, ',')| && Split(params.consoles.value, ',')[i] in p.consoles)
  }

  predicate NoParams(params: SearchParams)
  {
    !Truthy(params.q) && !Truthy(params.location) && params.minPrice.None? && params.maxPrice.None? && !Truthy(params.consoles)
  }

  /** `searchParlours`' query construction, one optional part after the other. */
  method BuildQuery(params: SearchParams) returns (query: Query)
    ensures forall p :: Matches(query, p) <==> SearchSpec(params, p)
    ensures NoParams(params) <==> query == EmptyQuery
    ensures Truthy(params.q) <==> query.text.Some?
    ensures params.minPrice.None? && params.maxPrice.None? <==> query.price.None?
  {
    query := EmptyQuery;
    if Truthy(params.q) {
      query := query.(text := params.q);
    }
    if Truthy(params.location) {
      query := query.(location := params.location);
    }
    if params.minPrice.Some? || params.maxPrice.Some? {
      var range := PriceRange(None, None);
      if params.minPrice.Some? {
        range := range.(gte := params.minPrice);
      }
      if params.maxPrice.Some? {
        range := range.(lte := params.maxPrice);
      }
      query := query.(price := Some(range));
    }
    if Truthy(params.consoles) {
      query := query.(consoles := Some(Split(params.consoles.value, ',')));
    }
  }

  /** The empty query matches every parlour. */
  lemma EmptyQueryMatchesAll(p: Parlour)
    ensures Matches(EmptyQuery, p)
  {
  }

  /** `searchParlours`: the parlours the built query matches, in stored order, and their count. */
  method SearchParlours(parlours: seq<Parlour>, params: SearchParams) returns (count: nat, data: seq<Parlour>)
    ensures count == |data|
    ensures forall k :: 0 <= k < |data| ==> SearchSpec(params, data[k]) && data[k] in parlours
    ensures forall i :: 0 <= i < |parlours| && SearchSpec(params, parlours[i]) ==> parlours[i] in data
    ensures Sequences.Subsequence(data, parlours)
    ensures NoParams(params) ==> data == parlours
  {
    var query := BuildQuery(params);
    data := Sequences.Filter(parlours, (p: Parlour) => Matches(query, p));
    if NoParams(params) {
      Sequences.FilterAll(parlours, (p: Parlour) => Matches(query, p));
    }
    count := |data|;
  }

  // ================================================================ create, update, delete

  datatype ParlourError =
    | ParlourMissing
    | NotOwner
    | Rejected(violations: seq<ParlourSchema.Violation>)

  function ParlourErrorStatus(e: ParlourError): nat
  {
    match e
    case ParlourMissing => 404
    case NotOwner => 401
    case Rejected(_) => 400
  }

  /** `parlour.owner.toString() !== req.user.id && req.user.role !== 'admin'` is the refusal. */
  predicate MayManage(p: Parlour, a: Actor)
  {
    p.owner == a.id || a.isAdmin
  }

  /** An update body: any of the schema's paths. */
  datatype ParlourPatch = ParlourPatch(
    name: Option<string>,
    description: Option<string>,
    location: Option<string>,
    price: Option<real>,
    rating: Option<real>,
    numReviews: Option<int>,
    consoles: Option<seq<string>>,
    owner: Option<string>)

  /** The stored parlour with the patch laid over it, as the validators see it. */
  function Patched(p: Parlour, patch: ParlourPatch): ParlourDraft
  {
    ParlourDraft(
      Some(if patch.name.Some? then patch.name.value else p.name),
      Some(if patch.description.Some? then patch.description.value else p.description),
      Some(if patch.location.Some? then patch.location.value else p.location),
      Some(if patch.price.Some? then patch.price.value else p.price),
      Some(if patch.rating.Some? then patch.rating.value else p.rating),
      Some(if patch.numReviews.Some? then patch.numReviews.value else p.numReviews),
      if patch.consoles.Some? then patch.consoles.value else p.consoles,
      Some(if patch.owner.Some? then patch.owner.value else p.owner))
  }

  /** `updateParlour`'s decision on a found parlour: refused unless owner or admin, then validated. */
  function UpdateParlourDecision(p: Parlour, patch: ParlourPatch, a: Actor): (r: Result<Parlour, ParlourError>)
    ensures !MayManage(p, a) <==> r == Err(NotOwner)
    ensures r.Ok? <==> MayManage(p, a) && Validate(p.id, Patched(p, patch)).Ok?
    ensures r.Ok? ==> r.value.id == p.id
    ensures r.Ok? ==> r == Ok(Validate(p.id, Patched(p, patch)).value)
    ensures r.Ok? && patch.owner.None? ==> r.value.owner == p.owner
    ensures r.Ok? && patch.owner.Some? ==> r.value.owner == patch.owner.value
    ensures r.Ok? && patch.price.Some? ==> r.value.price == patch.price.value
    ensures r.Ok? && patch.consoles.Some? ==> r.value.consoles == patch.consoles.value
    ensures MayManage(p, a) && r.Err? ==> r == Err(Rejected(ParlourSchema.Violations(Patched(p, patch))))
  {
    if !MayManage(p, a) then Err(NotOwner)
    else
      match Validate(p.id, Patched(p, patch))
      case Ok(q) => Ok(q)
      case Err(v) => Err(Rejected(v))
  }

  /** The patch may name a new owner, and the current owner may hand the parlour away. */
  lemma OwnerCanBeReassigned(p: Parlour, a: Actor, newOwner: string)
    requires MayManage(p, a) && newOwner != ""
    requires Validate(p.id, Patched(p, ParlourPatch(None, None, None, None, None, None, None, Some(newOwner)))).Ok?
    ensures
      var r := UpdateParlourDecision(p, ParlourPatch(None, None, None, None, None, None, None, Some(newOwner)), a);
      r.Ok? && r.value.owner == newOwner
  {
  }

  function IndexOfParlour(docs: seq<Parlour>, id: string): (r: Option<nat>)
    ensures r.Some? ==> r.value < |docs| && docs[r.value].id == id
    ensures r.None? <==> forall j :: 0 <= j < |docs| ==> docs[j].id != id
  {
    Sequences.FindIndex(docs, (p: Parlour) => p.id == id)
  }

  /** The parlour collection: its documents, in insertion order. */
  class ParlourCollection {
    var docs: seq<Parlour>

    constructor ()
      ensures docs == []
    {
      docs := [];
    }

    /** `createParlour`: the requester becomes the owner, whatever the body said, then the schema decides. */
    method Create(id: string, body: ParlourDraft, requester: Actor) returns (r: Result<Parlour, ParlourError>)
      modifies this
      ensures var v := Validate(id, body.(owner := Some(requester.id)));
        && (v.Ok? ==> r == Ok(v.value) && docs == old(docs) + [v.value])
        && (v.Err? ==> r == Err(Rejected(v.error)) && docs == old(docs))
      ensures r.Ok? ==> r.value.owner == requester.id
    {
      var owned := body.(owner := Some(requester.id));
      var v := Validate(id, owned);
      if v.Err? {
        return Err(Rejected(v.error));
      }
      docs := docs + [v.value];
      return Ok(v.value);
    }

    /** `updateParlour`: 404, 401 or the validated update; nothing changes unless it succeeds. */
    method Update(id: string, patch: ParlourPatch, a: Actor) returns (r: Result<Parlour, ParlourError>)
      modifies this
      ensures var k := IndexOfParlour(old(docs), id);
        && (k.None? ==> r == Err(ParlourMissing))
        && (k.Some? ==> r == UpdateParlourDecision(old(docs)[k.value], patch, a))
        && (k.Some? && r.Ok? ==> docs == old(docs)[k.value := r.value])
      ensures r.Err? ==> docs == old(docs)
    {
      var k := IndexOfParlour(docs, id);
      if k.None? {
        return Err(ParlourMissing);
      }
      r := UpdateParlourDecision(docs[k.value], patch, a);
      if r.Ok? {
        docs := docs[k.value := r.value];
      }
    }

    /** `deleteParlour`: 404 or 401, else the parlour is removed and every other one kept in order. */
    method Delete(id: string, a: Actor) returns (r: Result<Parlour, ParlourError>)
      modifies this
      ensures var k := IndexOfParlour(old(docs), id);
        && (k.None? ==> r == Err(ParlourMissing) && docs == old(docs))
        && (k.Some? && !MayManage(old(docs)[k.value], a) ==> r == Err(NotOwner) && docs == old(docs))
        && (k.Some? && MayManage(old(docs)[k.value], a) ==>
              r == Ok(old(docs)[k.value]) && docs == old(docs)[..k.value] + old(docs)[k.value + 1..])
    {
      var k := IndexOfParlour(docs, id);
      if k.None? {
        return Err(ParlourMissing);
      }
      var p := docs[k.value];
      if !MayManage(p, a) {
        return Err(NotOwner);
      }
      docs := docs[..k.value] + docs[k.value + 1..];
      return Ok(p);
    }
  }
}
