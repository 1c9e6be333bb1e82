/** The ad-group accessor: List, Get, Create, Edit, Delete and Find on the ad
    groups of one campaign. Each operation checks its identifiers, shapes a
    request (an HTTP method, a path relative to the API root and a body), hands
    it to the transport, and passes the transport's results back.

    The model separates the two halves. `ListRequest` ... `FindRequest` shape
    the request or report the validation error; `Recognize` reads a request
    back into the call that made it, which proves that the request identifies
    the operation and its arguments. `List` ... `Find` run the shaped request
    through a `Transport`, a record of the collaborators' behaviours, and
    return what the Go methods return. */
module AdGroupService {
  import opened Wrappers
  import Decimal

  predicate InInt64Range(x: int) {
    -0x8000_0000_0000_0000 <= x < 0x8000_0000_0000_0000
  }

  /** Go's `int64`. */
  type Int64 = x: int | InInt64Range(x)

  /** The record an `*AdGroup` points to; this layer never looks inside it. */
  type AdGroup(==)
  /** The value a `*Selector` points to. */
  type Selector(==)
  /** The transport's `*Response` (status, headers). */
  type Response(==)
  /** An error value produced by `addOptions`, `NewRequest` or `Do`. */
  type ExternalError(==)
  /** The request `NewRequest` builds. */
  type HttpRequest(==)

  datatype Method = GET | POST | PUT | DELETE

  /** The body argument of `NewRequest`: untyped nil, the caller's `*AdGroup`
      (itself possibly nil) or the caller's `*Selector` (possibly nil). */
  datatype Body = NoBody | AdGroupBody(data: Option<AdGroup>) | SelectorBody(sel: Option<Selector>)

  /** The HTTP method, path and body an operation passes to `NewRequest`. For List
      the path is the one before `addOptions` appends the query. */
  datatype Request = Request(verb: Method, path: string, body: Body)

  /** The errors an operation returns: its own two validation errors, or one
      produced by a collaborator, unchanged. */
  datatype Error = CampaignIDZero | IDZero | External(cause: ExternalError)
  {
    function Message(): string
      requires !External?
    {
      if CampaignIDZero? then "campaignID can not be 0" else "id can not be 0"
    }
  }

  /** What `client.Do` leaves behind: the destination after decoding into it,
      the response (nil allowed) and the error (nil allowed). */
  datatype Reply<D> = Reply(dest: D, resp: Option<Response>, err: Option<ExternalError>)

  /** The collaborators. `newRequest` is `client.NewRequest`. `Do` decodes into
      a destination of the caller's type; the three kinds used here are a slice
      of records (`nil` is `None`), a freshly allocated record, and no
      destination at all. */
  datatype Transport = Transport(
    newRequest: Request -> Result<HttpRequest, ExternalError>,
    doList: (HttpRequest, Option<seq<AdGroup>>) -> Reply<Option<seq<AdGroup>>>,
    doRecord: HttpRequest -> Reply<AdGroup>,
    doBare: HttpRequest -> (Option<Response>, Option<ExternalError>))

  /** A Go triple `(value, *Response, error)`. */
  datatype Returned<V> = Returned(value: V, resp: Option<Response>, err: Option<Error>)

  // ---------------------------------------------------------------------------
  // Request shaping

  /** `fmt.Sprintf("campaigns/%d/adgroups", campaignID)` */
  function CollectionPath(campaignID: int): string {
    "campaigns/" + Decimal.Format(campaignID) + "/adgroups"
  }

  /** `fmt.Sprintf("campaigns/%d/adgroups/%d", campaignID, id)` */
  function ItemPath(campaignID: int, id: int): string {
    "campaigns/" + Decimal.Format(campaignID) + "/adgroups/" + Decimal.Format(id)
  }

  /** `fmt.Sprintf("campaigns/%d/adgroups/find", campaignID)` */
  function FindPath(campaignID: int): string {
    "campaigns/" + Decimal.Format(campaignID) + "/adgroups/find"
  }

  /** A call of one of the six operations, with the arguments that reach the
      request. */
  datatype Call =
    | ListCall(campaignID: Int64)
    | GetCall(campaignID: Int64, id: Int64)
    | CreateCall(campaignID: Int64, data: Option<AdGroup>)
    | EditCall(campaignID: Int64, id: Int64, data: Option<AdGroup>)
    | DeleteCall(campaignID: Int64, id: Int64)
    | FindCall(campaignID: Int64, sel: Option<Selector>)

  /** The parts of a path between its slashes. */
  function Segments(p: string): (segs: seq<string>)
    ensures |segs| >= 1
    decreases |p|
  {
    if p == [] then [""]
    else
      var rest := Segments(p[1..]);
      if p[0] == '/' then [""] + rest else [[p[0]] + rest[0]] + rest[1..]
  }

  /** The call that shapes `req`, read off its method, its path's segments and
      its body; `None` when no call shapes it. */
  function Recognize(req: Request): Option<Call> {
    var segs := Segments(req.path);
    if |segs| < 3 || segs[0] != "campaigns" || segs[2] != "adgroups" then None
    else
      match Decimal.Parse(segs[1])
      case None => None
      case Some(c) =>
        if !InInt64Range(c) then None
        else if |segs| == 3 then
          match req.body
          case NoBody => if req.verb == GET then Some(ListCall(c)) else None
          case AdGroupBody(data) => if req.verb == POST then Some(CreateCall(c, data)) else None
          case SelectorBody(_) => None
        else if |segs| == 4 && segs[3] == "find" then
          match req.body
          case SelectorBody(sel) => if req.verb == POST then Some(FindCall(c, sel)) else None
          case _ => None
        else if |segs| == 4 then
          match Decimal.Parse(segs[3])
          case None => None
          case Some(id) =>
            if !InInt64Range(id) then None
            else
              match (req.verb, req.body)
              case (GET, NoBody) => Some(GetCall(c, id))
              case (PUT, AdGroupBody(data)) => Some(EditCall(c, id, data))
              case (DELETE, NoBody) => Some(DeleteCall(c, id))
              case _ => None
        else None
  }

  /** Splitting `a/b` where `a` has no slash yields `a`, then the parts of `b`. */
  lemma {:induction false} SegmentsCons(a: string, b: string)
    requires '/' !in a
    ensures Segments(a + "/" + b) == [a] + Segments(b)
    decreases |a|
  {
    var p := a + "/" + b;
    if a == [] {
      assert p[1..] == b;
    } else {
      assert p[0] == a[0];
      assert p[1..] == a[1..] + "/" + b;
      SegmentsCons(a[1..], b);
      assert [a[0]] + a[1..] == a;
    }
  }

  /** A text without a slash is one segment. */
  lemma {:induction false} SegmentsSingle(a: string)
    requires '/' !in a
    ensures Segments(a) == [a]
    decreases |a|
  {
    if a != [] {
      SegmentsSingle(a[1..]);
      assert [a[0]] + a[1..] == a;
    }
  }

  lemma CollectionPathSegments(c: int)
    ensures Segments(CollectionPath(c)) == ["campaigns", Decimal.Format(c), "adgroups"]
  {
    var f := Decimal.Format(c);
    assert CollectionPath(c) == "campaigns" + "/" + (f + "/" + "adgroups");
    SegmentsCons("campaigns", f + "/" + "adgroups");
    SegmentsCons(f, "adgroups");
    SegmentsSingle("adgroups");
  }

  lemma ItemPathSegments(c: int, last: string)
    requires '/' !in last
    ensures Segments("campaigns/" + Decimal.Format(c) + "/adgroups/" + last)
         == ["campaigns", Decimal.Format(c), "adgroups", last]
  {
    var f := Decimal.Format(c);
    assert "campaigns/" + f + "/adgroups/" + last
        == "campaigns" + "/" + (f + "/" + ("adgroups" + "/" + last));
    SegmentsCons("campaigns", f + "/" + ("adgroups" + "/" + last));
    SegmentsCons(f, "adgroups" + "/" + last);
    SegmentsCons("adgroups", last);
    SegmentsSingle(last);
  }

  /** List: `GET campaigns/<campaignID>/adgroups`, no body; fails only when
      campaignID is 0. */
  function ListRequest(campaignID: Int64): (r: Result<Request, Error>)
    ensures r.Failure? <==> campaignID == 0
    ensures r.Failure? ==> r.error == CampaignIDZero
    ensures r.Success? ==> r.value.path == CollectionPath(campaignID)
    ensures r.Success? ==> Recognize(r.value) == Some(ListCall(campaignID))
  {
    if campaignID == 0 then Failure(CampaignIDZero)
    else
      CollectionPathSegments(campaignID);
      Decimal.FormatThenParse(campaignID);
      Success(Request(GET, CollectionPath(campaignID), NoBody))
  }

  /** Get: `GET campaigns/<campaignID>/adgroups/<id>`, no body. Only campaignID
      is checked: an id of 0 is sent as the path segment "0". */
  function GetRequest(campaignID: Int64, id: Int64): (r: Result<Request, Error>)
    ensures r.Failure? <==> campaignID == 0
    ensures r.Failure? ==> r.error == CampaignIDZero
    ensures r.Success? ==> r.value.path == ItemPath(campaignID, id)
    ensures r.Success? ==> Recognize(r.value) == Some(GetCall(campaignID, id))
  {
    if campaignID == 0 then Failure(CampaignIDZero)
    else
      ItemPathSegments(campaignID, Decimal.Format(id));
      Decimal.FormatThenParse(campaignID);
      Decimal.FormatThenParse(id);
      Success(Request(GET, ItemPath(campaignID, id), NoBody))
  }

  /** Create: `POST campaigns/<campaignID>/adgroups` with the caller's record as
      the body. */
  function CreateRequest(campaignID: Int64, data: Option<AdGroup>): (r: Result<Request, Error>)
    ensures r.Failure? <==> campaignID == 0
    ensures r.Failure? ==> r.error == CampaignIDZero
    ensures r.Success? ==> r.value.path == CollectionPath(campaignID)
    ensures r.Success? ==> Recognize(r.value) == Some(CreateCall(campaignID, data))
  {
    if campaignID == 0 then Failure(CampaignIDZero)
    else
      CollectionPathSegments(campaignID);
      Decimal.FormatThenParse(campaignID);
      Success(Request(POST, CollectionPath(campaignID), AdGroupBody(data)))
  }

  /** Edit: `PUT campaigns/<campaignID>/adgroups/<id>` with the caller's record
      as the body. campaignID is checked before id, so when both are 0 the
      campaignID error is the one returned. */
  function EditRequest(campaignID: Int64, id: Int64, data: Option<AdGroup>): (r: Result<Request, Error>)
    ensures r.Success? <==> campaignID != 0 && id != 0
    ensures r == Failure(CampaignIDZero) <==> campaignID == 0
    ensures r == Failure(IDZero) <==> campaignID != 0 && id == 0
    ensures r.Success? ==> r.value.path == ItemPath(campaignID, id)
    ensures r.Success? ==> Recognize(r.value) == Some(EditCall(campaignID, id, data))
  {
    if campaignID == 0 then Failure(CampaignIDZero)
    else if id == 0 then Failure(IDZero)
    else
      ItemPathSegments(campaignID, Decimal.Format(id));
      Decimal.FormatThenParse(campaignID);
      Decimal.FormatThenParse(id);
      Success(Request(PUT, ItemPath(campaignID, id), AdGroupBody(data)))
  }

  /** Delete: `DELETE campaigns/<campaignID>/adgroups/<id>`, no body; the same
      two checks as Edit, in the same order. */
  function DeleteRequest(campaignID: Int64, id: Int64): (r: Result<Request, Error>)
    ensures r.Success? <==> campaignID != 0 && id != 0
    ensures r == Failure(CampaignIDZero) <==> campaignID == 0
    ensures r == Failure(IDZero) <==> campaignID != 0 && id == 0
    ensures r.Success? ==> r.value.path == ItemPath(campaignID, id)
    ensures r.Success? ==> Recognize(r.value) == Some(DeleteCall(campaignID, id))
  {
    if campaignID == 0 then Failure(CampaignIDZero)
    else if id == 0 then Failure(IDZero)
    else
      ItemPathSegments(campaignID, Decimal.Format(id));
      Decimal.FormatThenParse(campaignID);
      Decimal.FormatThenParse(id);
      Success(Request(DELETE, ItemPath(campaignID, id), NoBody))
  }

  /** Find: `POST campaigns/<campaignID>/adgroups/find` with the caller's
      selector as the body. */
  function FindRequest(campaignID: Int64, sel: Option<Selector>): (r: Result<Request, Error>)
    ensures r.Failure? <==> campaignID == 0
    ensures r.Failure? ==> r.error == CampaignIDZero
    ensures r.Success? ==> r.value.path == FindPath(campaignID)
    ensures r.Success? ==> Recognize(r.value) == Some(FindCall(campaignID, sel))
  {
    if campaignID == 0 then Failure(CampaignIDZero)
    else
      ItemPathSegments(campaignID, "find");
      Decimal.FormatThenParse(campaignID);
      assert FindPath(campaignID) == "campaigns/" + Decimal.Format(campaignID) + "/adgroups/" + "find";
      Success(Request(POST, FindPath(campaignID), SelectorBody(sel)))
  }

  /** The request a call shapes, or its validation error. */
  function Shape(call: Call): (r: Result<Request, Error>)
    ensures r.Success? ==> Recognize(r.value) == Some(call)
    ensures r.Failure? <==> call.campaignID == 0 || ((call.EditCall? || call.DeleteCall?) && call.id == 0)
  {
    match call
    case ListCall(c) => ListRequest(c)
    case GetCall(c, id) => GetRequest(c, id)
    case CreateCall(c, data) => CreateRequest(c, data)
    case EditCall(c, id, data) => EditRequest(c, id, data)
    case DeleteCall(c, id) => DeleteRequest(c, id)
    case FindCall(c, sel) => FindRequest(c, sel)
  }

  /** Two calls that shape the same request are the same call: the method, path
      and body together determine the operation and every argument. */
  lemma ShapeInjective(a: Call, b: Call)
    requires Shape(a).Success? && Shape(a) == Shape(b)
    ensures a == b
  {
  }

  // ---------------------------------------------------------------------------
  // Running a shaped request through the transport

  /** The common tail of List, Get, Create, Edit and Find: build the request,
      run it, and return the destination, the response and the error, with a
      nil value whenever there is an error. */
  function Send<V>(t: Transport, req: Request, run: HttpRequest -> Reply<V>, nil: V): (r: Returned<V>)
    ensures t.newRequest(req).Failure? ==> r == Returned(nil, None, Some(External(t.newRequest(req).error)))
    ensures t.newRequest(req).Success? ==>
      var reply := run(t.newRequest(req).value);
      && r.resp == reply.resp
      && (r.err.None? <==> reply.err.None?)
      && (reply.err.Some? ==> r == Returned(nil, reply.resp, Some(External(reply.err.value))))
      && (reply.err.None? ==> r.value == reply.dest)
  {
    match t.newRequest(req)
    case Failure(e) => Returned(nil, None, Some(External(e)))
    case Success(h) =>
      var reply := run(h);
      if reply.err.Some? then Returned(nil, reply.resp, Some(External(reply.err.value)))
      else Returned(reply.dest, reply.resp, None)
  }

  /** `Do` into a freshly allocated record, returning a pointer to it. */
  function RecordInto(t: Transport): HttpRequest -> Reply<Option<AdGroup>> {
    h => var reply := t.doRecord(h); Reply(Some(reply.dest), reply.resp, reply.err)
  }

  /** `[]*AdGroup{}`: an empty slice that is not nil. */
  const EmptySlice: Option<seq<AdGroup>> := Some([])

  /** `Do` into a slice that starts empty and non-nil. */
  function SliceInto(t: Transport): HttpRequest -> Reply<Option<seq<AdGroup>>> {
    h => t.doList(h, EmptySlice)
  }

  /** `func (s *AdGroupService) List(ctx, campaignID, opt)`; `addOptions` is
      `addOptions(·, opt)`. */
  function List(t: Transport, campaignID: Int64, addOptions: string -> Result<string, ExternalError>)
    : (r: Returned<Option<seq<AdGroup>>>)
    ensures campaignID == 0 ==> r == Returned(None, None, Some(CampaignIDZero))
    ensures campaignID != 0 && addOptions(CollectionPath(campaignID)).Failure? ==>
      r == Returned(None, None, Some(External(addOptions(CollectionPath(campaignID)).error)))
    ensures r.err.Some? ==> r.value == None
    ensures r.err.None? ==> campaignID != 0 && addOptions(CollectionPath(campaignID)).Success?
    ensures r.resp.Some? ==> campaignID != 0
    ensures campaignID != 0 && addOptions(CollectionPath(campaignID)).Success? ==>
      match t.newRequest(Request(GET, addOptions(CollectionPath(campaignID)).value, NoBody))
      case Failure(e) => r == Returned(None, None, Some(External(e)))
      case Success(h) =>
        var reply := t.doList(h, EmptySlice);
        && (reply.err.Some? ==> r == Returned(None, reply.resp, Some(External(reply.err.value))))
        && (reply.err.None? ==> r == Returned(reply.dest, reply.resp, None))
  {
    match ListRequest(campaignID)
    case Failure(e) => Returned(None, None, Some(e))
    case Success(req) =>
      match addOptions(req.path)
      case Failure(e) => Returned(None, None, Some(External(e)))
      case Success(u) => Send(t, req.(path := u), SliceInto(t), None)
  }

  /** `func (s *AdGroupService) Get(ctx, campaignID, id)` */
  function Get(t: Transport, campaignID: Int64, id: Int64): (r: Returned<Option<AdGroup>>)
    ensures campaignID == 0 ==> r == Returned(None, None, Some(CampaignIDZero))
    ensures r.err.Some? ==> r.value == None
    ensures r.err.None? ==> campaignID != 0 && r.value.Some?
    ensures r.resp.Some? ==> campaignID != 0
    ensures campaignID != 0 ==>
      match t.newRequest(Request(GET, ItemPath(campaignID, id), NoBody))
      case Failure(e) => r == Returned(None, None, Some(External(e)))
      case Success(h) =>
        var reply := t.doRecord(h);
        && (reply.err.Some? ==> r == Returned(None, reply.resp, Some(External(reply.err.value))))
        && (reply.err.None? ==> r == Returned(Some(reply.dest), reply.resp, None))
  {
    match GetRequest(campaignID, id)
    case Failure(e) => Returned(None, None, Some(e))
    case Success(req) => Send(t, req, RecordInto(t), None)
  }

  /** `func (s *AdGroupService) Create(ctx, campaignID, data)` */
  function Create(t: Transport, campaignID: Int64, data: Option<AdGroup>): (r: Returned<Option<AdGroup>>)
    ensures campaignID == 0 ==> r == Returned(None, None, Some(CampaignIDZero))
    ensures r.err.Some? ==> r.value == None
    ensures r.err.None? ==> campaignID != 0 && r.value.Some?
    ensures r.resp.Some? ==> campaignID != 0
    ensures campaignID != 0 ==>
      match t.newRequest(Request(POST, CollectionPath(campaignID), AdGroupBody(data)))
      case Failure(e) => r == Returned(None, None, Some(External(e)))
      case Success(h) =>
        var reply := t.doRecord(h);
        && (reply.err.Some? ==> r == Returned(None, reply.resp, Some(External(reply.err.value))))
        && (reply.err.None? ==> r == Returned(Some(reply.dest), reply.resp, None))
  {
    match CreateRequest(campaignID, data)
    case Failure(e) => Returned(None, None, Some(e))
    case Success(req) => Send(t, req, RecordInto(t), None)
  }

  /** `func (s *AdGroupService) Edit(ctx, campaignID, id, data)` */
  function Edit(t: Transport, campaignID: Int64, id: Int64, data: Option<AdGroup>): (r: Returned<Option<AdGroup>>)
    ensures campaignID == 0 ==> r == Returned(None, None, Some(CampaignIDZero))
    ensures campaignID != 0 && id == 0 ==> r == Returned(None, None, Some(IDZero))
    ensures r.err.Some? ==> r.value == None
    ensures r.err.None? ==> campaignID != 0 && id != 0 && r.value.Some?
    ensures r.resp.Some? ==> campaignID != 0 && id != 0
    ensures campaignID != 0 && id != 0 ==>
      match t.newRequest(Request(PUT, ItemPath(campaignID, id), AdGroupBody(data)))
      case Failure(e) => r == Returned(None, None, Some(External(e)))
      case Success(h) =>
        var reply := t.doRecord(h);
        && (reply.err.Some? ==> r == Returned(None, reply.resp, Some(External(reply.err.value))))
        && (reply.err.None? ==> r == Returned(Some(reply.dest), reply.resp, None))
  {
    match EditRequest(campaignID, id, data)
    case Failure(e) => Returned(None, None, Some(e))
    case Success(req) => Send(t, req, RecordInto(t), None)
  }

  /** `func (s *AdGroupService) Delete(ctx, campaignID, id)`: after the checks
      and a successful `NewRequest`, the pair `Do` returns, as it is. */
  function Delete(t: Transport, campaignID: Int64, id: Int64): (r: (Option<Response>, Option<Error>))
    ensures campaignID == 0 ==> r == (None, Some(CampaignIDZero))
    ensures campaignID != 0 && id == 0 ==> r == (None, Some(IDZero))
    ensures r.0.Some? ==> campaignID != 0 && id != 0
    ensures campaignID != 0 && id != 0 ==>
      var req := Request(DELETE, ItemPath(campaignID, id), NoBody);
      match t.newRequest(req)
      case Failure(e) => r == (None, Some(External(e)))
      case Success(h) =>
        && r.0 == t.doBare(h).0
        && (r.1.None? <==> t.doBare(h).1.None?)
        && (r.1.Some? ==> r.1.value == External(t.doBare(h).1.value))
  {
    match DeleteRequest(campaignID, id)
    case Failure(e) => (None, Some(e))
    case Success(req) =>
      match t.newRequest(req)
      case Failure(e) => (None, Some(External(e)))
      case Success(h) =>
        var (resp, err) := t.doBare(h);
        (resp, if err.Some? then Some(External(err.value)) else None)
  }

  /** `func (s *AdGroupService) Find(ctx, campaignID, sel)` */
  function Find(t: Transport, campaignID: Int64, sel: Option<Selector>): (r: Returned<Option<seq<AdGroup>>>)
    ensures campaignID == 0 ==> r == Returned(None, None, Some(CampaignIDZero))
    ensures r.err.Some? ==> r.value == None
    ensures r.err.None? ==> campaignID != 0
    ensures r.resp.Some? ==> campaignID != 0
    ensures campaignID != 0 ==>
      match t.newRequest(Request(POST, FindPath(campaignID), SelectorBody(sel)))
      case Failure(e) => r == Returned(None, None, Some(External(e)))
      case Success(h) =>
        var reply := t.doList(h, EmptySlice);
        && (reply.err.Some? ==> r == Returned(None, reply.resp, Some(External(reply.err.value))))
        && (reply.err.None? ==> r == Returned(reply.dest, reply.resp, None))
  {
    match FindRequest(campaignID, sel)
    case Failure(e) => Returned(None, None, Some(e))
    case Success(req) => Send(t, req, SliceInto(t), None)
  }

  // ---------------------------------------------------------------------------
  // Properties relating several calls

  /** A validation error never reaches the transport: with campaignID 0 every
      operation returns the same result whatever the collaborators do. */
  lemma ValidationIgnoresTransport(t1: Transport, t2: Transport,
                                   o1: string -> Result<string, ExternalError>,
                                   o2: string -> Result<string, ExternalError>,
                                   id: Int64, data: Option<AdGroup>, sel: Option<Selector>)
    ensures List(t1, 0, o1) == List(t2, 0, o2)
    ensures Get(t1, 0, id) == Get(t2, 0, id)
    ensures Create(t1, 0, data) == Create(t2, 0, data)
    ensures Edit(t1, 0, id, data) == Edit(t2, 0, id, data)
    ensures Delete(t1, 0, id) == Delete(t2, 0, id)
    ensures Find(t1, 0, sel) == Find(t2, 0, sel)
  {
  }

  /** Get does not check id: with a nonzero campaign it sends the request for
      the ad group "0". */
  lemma GetSendsZeroId(campaignID: Int64)
    requires campaignID != 0
    ensures GetRequest(campaignID, 0) == Success(Request(GET, "campaigns/" + Decimal.Format(campaignID) + "/adgroups/0", NoBody))
  {
    var f := Decimal.Format(campaignID);
    assert Decimal.Format(0) == [Decimal.DigitChar(0)] == "0";
    assert ItemPath(campaignID, 0) == "campaigns/" + f + "/adgroups/" + "0";
    assert "campaigns/" + f + "/adgroups/" + "0" == "campaigns/" + f + "/adgroups/0";
  }

  /** Example: List for campaign 42 shapes `GET campaigns/42/adgroups`. */
  lemma ListExample()
    ensures ListRequest(42) == Success(Request(GET, "campaigns/42/adgroups", NoBody))
  {
    assert Decimal.Digits(4) == [Decimal.DigitChar(4)] == "4";
    assert Decimal.Format(42) == Decimal.Digits(4) + [Decimal.DigitChar(2)] == "42";
    assert CollectionPath(42) == "campaigns/" + "42" + "/adgroups" == "campaigns/42/adgroups";
  }

  /** `Do` succeeds on `h` without writing to an empty slice it is handed. */
  predicate DecodesNothing(t: Transport, h: HttpRequest) {
    var reply := t.doList(h, EmptySlice);
    reply.err.None? ==> reply.dest == EmptySlice
  }

  /** List and Find hand `Do` an empty, non-nil slice: when `Do` succeeds
      without writing to it (the server matched nothing) the caller gets an
      empty, non-nil slice, never nil. */
  lemma ListEmptyIsNotNil(t: Transport, campaignID: Int64, addOptions: string -> Result<string, ExternalError>)
    requires forall h :: DecodesNothing(t, h)
    ensures List(t, campaignID, addOptions).err.None? ==> List(t, campaignID, addOptions).value == EmptySlice
  {
    if campaignID != 0 && addOptions(CollectionPath(campaignID)).Success? {
      var req := Request(GET, addOptions(CollectionPath(campaignID)).value, NoBody);
      assert List(t, campaignID, addOptions) == Send(t, req, SliceInto(t), None);
      if t.newRequest(req).Success? {
        var h := t.newRequest(req).value;
        assert SliceInto(t)(h) == t.doList(h, EmptySlice);
        assert DecodesNothing(t, h);
      }
    }
  }

  lemma FindEmptyIsNotNil(t: Transport, campaignID: Int64, sel: Option<Selector>)
    requires forall h :: DecodesNothing(t, h)
    ensures Find(t, campaignID, sel).err.None? ==> Find(t, campaignID, sel).value == EmptySlice
  {
    if campaignID != 0 {
      var req := FindRequest(campaignID, sel).value;
      assert Find(t, campaignID, sel) == Send(t, req, SliceInto(t), None);
      if t.newRequest(req).Success? {
        var h := t.newRequest(req).value;
        assert SliceInto(t)(h) == t.doList(h, EmptySlice);
        assert DecodesNothing(t, h);
      }
    }
  }

  /** On a transport error every operation returns a nil value with the
      transport's own response and error. */
  lemma TransportErrorPropagates(t: Transport, call: Call, addOptions: string -> Result<string, ExternalError>)
    requires Shape(call).Success? && !call.DeleteCall?
    ensures match call
      case ListCall(c) =>
        addOptions(CollectionPath(c)).Success? ==>
        var req := Request(GET, addOptions(CollectionPath(c)).value, NoBody);
        t.newRequest(req).Success? ==>
        var reply := t.doList(t.newRequest(req).value, EmptySlice);
        reply.err.Some? ==> List(t, c, addOptions) == Returned(None, reply.resp, Some(External(reply.err.value)))
      case GetCall(c, id) =>
        t.newRequest(Shape(call).value).Success? ==>
        var reply := t.doRecord(t.newRequest(Shape(call).value).value);
        reply.err.Some? ==> Get(t, c, id) == Returned(None, reply.resp, Some(External(reply.err.value)))
      case CreateCall(c, data) =>
        t.newRequest(Shape(call).value).Success? ==>
        var reply := t.doRecord(t.newRequest(Shape(call).value).value);
        reply.err.Some? ==> Create(t, c, data) == Returned(None, reply.resp, Some(External(reply.err.value)))
      case EditCall(c, id, data) =>
        t.newRequest(Shape(call).value).Success? ==>
        var reply := t.doRecord(t.newRequest(Shape(call).value).value);
        reply.err.Some? ==> Edit(t, c, id, data) == Returned(None, reply.resp, Some(External(reply.err.value)))
      case FindCall(c, sel) =>
        t.newRequest(Shape(call).value).Success? ==>
        var reply := t.doList(t.newRequest(Shape(call).value).value, EmptySlice);
        reply.err.Some? ==> Find(t, c, sel) == Returned(None, reply.resp, Some(External(reply.err.value)))
      case DeleteCall(_, _) => true
  {
  }
}
