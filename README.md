# Ad groups and the Status enum of a search-ads API client, in Dafny

This project models two pieces of a Go client for an advertising-campaign REST
API, and proves what they promise.

- **The `Status` enum codec** (`status.dfy`, module `StatusEnum`). `Status` is a
  byte. Four of its values are members: ENABLED=1, PAUSED=2, VALID=3 and
  INVALID=4. Two constant tables map names to values and values to names.
  `String` gives a member's name. `ParseStatus` looks up a name. `MarshalJSON`
  writes a member as the JSON string of its name. `UnmarshalJSON` reads a JSON
  string back into the receiver. The receiver is a `*Status`; here it is the
  class `StatusVar` with one field, and it is written only when decoding
  succeeds.
- **The ad-group accessor** (`adgroup.dfy`, module `AdGroupService`). It has six
  operations: List, Get, Create, Edit, Delete and Find, each on the ad groups
  of one campaign. Each one checks its identifiers in a fixed order. It then
  shapes a request, made of an HTTP method, a relative path and a body. It
  hands the request to the transport and returns the transport's result and
  error unchanged. The model splits this into two parts:
  - `ListRequest` … `FindRequest` shape the request or return the validation
    error. `Recognize` reads a request back into the call that shaped it. So a
    request identifies its operation and every argument (`ShapeInjective`).
  - `List` … `Find` run the shaped request through a `Transport`. That is a
    record of the collaborators' behaviours: `NewRequest`, and `Do` for each
    kind of destination. They return what the Go methods return, with `None`
    standing for `nil`.
- **Decimal text** (`decimal.dfy`, module `Decimal`). Paths are built with
  Go's `%d`. `Format` writes an integer the way `%d` does: no leading zeros,
  and a leading `-` for negatives. `Parse` reads that text back. The two are
  proved inverse in both directions, so `Format` is injective.

Things the source does that are easy to miss, and that the model states:

- `Get` checks `campaignID` but not `id`. `Get(c, 0)` requests
  `campaigns/<c>/adgroups/0`.
- `Edit` and `Delete` check `campaignID` before `id`. When both are 0, the
  error is "campaignID can not be 0".
- `String` returns two results, `(string, error)`. So `Status` is not a
  `fmt.Stringer`. The Stringer branches in `init` and in `MarshalJSON` never
  run, and the two static tables decide everything.
- JSON `null` is not reported as "should be a string". Go decodes `null` into
  a string without an error and leaves the string empty. The lookup of `""`
  then fails with `invalid Status ""`, so `DecodeJSON(JNull)` returns
  `UnknownName("")`.
- List and Find give `Do` a slice that is empty but not nil. A caller gets an
  empty, non-nil slice when `Do` succeeds without writing to it. If the
  transport's decoding sets the slice to nil, nil is returned. `ListEmptyIsNotNil` and
  `FindEmptyIsNotNil` state the property under the condition on `Do`.

Collaborators are parameters of the model. These are `client.NewRequest`,
`client.Do` and `addOptions(·, opt)`, which appends the query string for
List. The record types are opaque: `AdGroup`, `Selector`, `Response`, the
built request, and the errors the collaborators return.

## Model

| member | source | states |
|---|---|---|
| `Decimal.Format` | adgroup.go:88 | `%d` text of an integer: at least one character, a leading `-` exactly when the number is negative, then digits with no superfluous leading zero, and never a `/` |
| `Decimal.FormatThenParse` | adgroup.go:112 | reading back the decimal text of any integer gives that integer |
| `Decimal.ParseThenFormat` | adgroup.go:112 | every text `Parse` accepts is exactly the `%d` text of its value, so the decimal text of a number is unique |
| `Decimal.FormatInjective` | adgroup.go:155 | distinct identifiers print as distinct path segments |
| `StatusEnum.MembersAreOneToFour` | status.go:12-17 | ENABLED=1, PAUSED=2, VALID=3, INVALID=4; a byte is a member exactly when it is 1 to 4, so 0 is not a member |
| `StatusEnum.TablesAreInverse` | status.go:19-32 | the name table covers exactly the four names and the value table exactly the four members, and each table undoes the other |
| `StatusEnum.String` | status.go:83-89 | succeeds exactly for 1 to 4 and then returns the member's name in declaration order; any other byte gives "" and an invalid-Status error carrying the value |
| `StatusEnum.ParseStatus` | status.go:74-80 | succeeds exactly for the four exact, case-sensitive names, returning the member that `String` maps back to the same name; otherwise `Status(0)` and an invalid-Status error carrying the name |
| `StatusEnum.MarshalJSON` | status.go:48-57 | succeeds exactly for members, giving the member's name in double quotes; a non-member gives nil bytes and an invalid-Status error |
| `StatusEnum.DecodeJSON` | status.go:60-71 | succeeds exactly on a JSON string that names a member, and the result prints back as that string; other JSON gives "should be a string" with the raw text; `null` and an unknown string give "invalid Status" with the string ("" for `null`) |
| `StatusEnum.StatusVar.UnmarshalJSON` | status.go:60-71 | returns no error exactly when decoding succeeds and then stores the decoded member; on either error the receiver keeps its old value |
| `StatusEnum.StringThenParse` | status.go:74-89 | parsing the name of any member gives that member, with no error |
| `StatusEnum.ParseThenString` | status.go:74-89 | printing the member that a valid name parses to gives that name back |
| `StatusEnum.PausedExample` | status.go:48-71 | PAUSED (2) marshals to `"PAUSED"`, and the JSON string PAUSED decodes to 2 |
| `StatusEnum.UnmarshalMarshalled` | status.go:48-71 | a `*Status` receiver that unmarshals the JSON any member marshals to returns no error and then holds that member |
| `StatusEnum.MarshalThenUnmarshal` | status.go:48-71 | for every member, MarshalJSON's text is a JSON string literal with no escapes, and decoding that literal's text yields the same member |
| `AdGroupService.ListRequest` | adgroup.go:85-92 | fails exactly when campaignID is 0, with "campaignID can not be 0"; otherwise it is GET on `campaigns/<c>/adgroups` (before options) with no body, and it reads back as `ListCall(c)` |
| `AdGroupService.GetRequest` | adgroup.go:109-113 | fails exactly when campaignID is 0, and never because of id; otherwise it is GET on `campaigns/<c>/adgroups/<id>` with no body, and it reads back as `GetCall(c, id)` |
| `AdGroupService.CreateRequest` | adgroup.go:129-133 | fails exactly when campaignID is 0; otherwise it is POST on `campaigns/<c>/adgroups` with the caller's record as body, and it reads back as `CreateCall(c, data)` |
| `AdGroupService.EditRequest` | adgroup.go:149-156 | succeeds exactly when both identifiers are nonzero; the campaignID error wins whenever campaignID is 0, and the id error comes only with a nonzero campaignID; on success it is PUT on `campaigns/<c>/adgroups/<id>` with the record as body, and it reads back as `EditCall` |
| `AdGroupService.DeleteRequest` | adgroup.go:172-179 | has the same two checks in the same order as Edit; on success it is DELETE on `campaigns/<c>/adgroups/<id>` with no body, and it reads back as `DeleteCall` |
| `AdGroupService.FindRequest` | adgroup.go:189-192 | fails exactly when campaignID is 0; otherwise it is POST on `campaigns/<c>/adgroups/find` with the selector as body, and it reads back as `FindCall(c, sel)` |
| `AdGroupService.Shape` | adgroup.go:84-205 | every request an operation shapes reads back as the very call that shaped it; shaping fails exactly for a zero campaignID, or a zero id in Edit or Delete |
| `AdGroupService.ShapeInjective` | adgroup.go:84-205 | two calls that shape the same method, path and body are the same operation with the same arguments |
| `AdGroupService.Send` | adgroup.go:113-124 | a request-construction error gives a nil value, a nil response and that error; otherwise the response is always the transport's; the call succeeds exactly when `Do` does; on a `Do` error the value is nil and the error is `Do`'s; on success the value is the destination `Do` filled |
| `AdGroupService.List` | adgroup.go:84-105 | campaignID 0 gives (nil, nil, campaignID error); an `addOptions` error gives (nil, nil, that error); otherwise NewRequest gets GET on the URL `addOptions` built, with no body; its error gives (nil, nil, that error); then `Do` is handed an empty non-nil slice, and a `Do` error gives (nil, `Do`'s response, `Do`'s error) while success gives (the slice `Do` left, `Do`'s response, nil) |
| `AdGroupService.Get` | adgroup.go:108-125 | campaignID 0 gives (nil, nil, campaignID error); otherwise NewRequest gets GET on `campaigns/<c>/adgroups/<id>` with no body; its error gives (nil, nil, that error); a `Do` error gives (nil, `Do`'s response, `Do`'s error); success gives (the record `Do` filled, `Do`'s response, nil) |
| `AdGroupService.Create` | adgroup.go:128-145 | campaignID 0 gives (nil, nil, campaignID error); otherwise NewRequest gets POST on `campaigns/<c>/adgroups` with the caller's record as body; its error gives (nil, nil, that error); a `Do` error gives (nil, `Do`'s response, `Do`'s error); success gives (the record `Do` filled, `Do`'s response, nil) |
| `AdGroupService.Edit` | adgroup.go:148-168 | campaignID 0 gives the campaignID error; a nonzero campaign with id 0 gives the id error; both come with nil value and nil response; otherwise NewRequest gets PUT on `campaigns/<c>/adgroups/<id>` with the record as body; its error gives (nil, nil, that error); a `Do` error gives (nil, `Do`'s response, `Do`'s error); success gives (the record `Do` filled, `Do`'s response, nil) |
| `AdGroupService.Delete` | adgroup.go:171-185 | has the two checks in Edit's order; a NewRequest error gives (nil, that error); after that, the returned pair is `Do`'s own response and error |
| `AdGroupService.Find` | adgroup.go:188-205 | campaignID 0 gives (nil, nil, campaignID error); otherwise NewRequest gets POST on `campaigns/<c>/adgroups/find` with the selector as body; its error gives (nil, nil, that error); then `Do` is handed an empty non-nil slice, and a `Do` error gives (nil, `Do`'s response, `Do`'s error) while success gives (the slice `Do` left, `Do`'s response, nil) |
| `AdGroupService.ValidationIgnoresTransport` | adgroup.go:85-87 | with campaignID 0 all six operations return the same result whatever the collaborators do, so the transport is never consulted |
| `AdGroupService.GetSendsZeroId` | adgroup.go:108-112 | with a nonzero campaign, Get for id 0 sends GET `campaigns/<c>/adgroups/0` |
| `AdGroupService.ListExample` | adgroup.go:88 | List for campaign 42 shapes GET `campaigns/42/adgroups` with no body |
| `AdGroupService.ListEmptyIsNotNil` | adgroup.go:97-104 | if `Do` succeeds without writing to the empty slice it is handed, List returns an empty, non-nil slice |
| `AdGroupService.FindEmptyIsNotNil` | adgroup.go:197-204 | if `Do` succeeds without writing to the empty slice it is handed, Find returns an empty, non-nil slice |
| `AdGroupService.TransportErrorPropagates` | adgroup.go:97-124 | when `Do` fails, List, Get, Create, Edit and Find return a nil value together with `Do`'s own response and error |

## Left out

- The HTTP transport is not modelled: `client.NewRequest`, `client.Do`,
  `context.Context` cancellation, and the query-string encoding inside
  `addOptions`. These are external collaborators and become function
  parameters. What List sends is whatever `addOptions` makes of the base path.
- The fields of `AdGroup` and `TargetingDimensions` are not modelled
  (adgroup.go:11-81), nor their JSON encoding or the `omitempty` tags. This
  layer only passes records through, so `AdGroup` is an opaque type. In a
  decoded slice, every element is a record; a nil `*AdGroup` element is not
  represented.
- `Amount`, `ListOptions`, `Selector`, `Response` and the other enum types are
  not part of this model. `Selector` and `Response` are opaque types.
- The `init` function (status.go:35-45) and the Stringer branch of
  `MarshalJSON` (status.go:49-51) are left out. Neither can run, because
  `String` has two results.
- JSON is not parsed byte by byte. UnmarshalJSON's input is the abstract
  `Json`: a string literal with its decoded text, `null`, or other text kept
  verbatim. `UnescapedLiteral` reads only literals that need no escapes. That
  covers everything `MarshalJSON` writes, since the four names are plain
  upper-case ASCII.
- StatusEnum.StatusError.Message: for an unknown name, `%q` is modelled as the
  name in double quotes. Go's escaping of quotes and non-printable characters
  is not modelled.
- Go strings are byte sequences; the model's strings are sequences of Dafny
  characters. This shows only in the raw text `NotAString` carries and in
  `ParseStatus` or `UnmarshalJSON` given text that is not valid UTF-8. Every
  lookup is exact equality, so no such input can name a member either way.
- Error values are plain data. Two errors built by `fmt.Errorf` with the same
  text are distinct values in Go but equal here. A collaborator's error is
  wrapped as `External(e)` and otherwise unchanged.
- Concurrency: there is none. Every call is independent.
