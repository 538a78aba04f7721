# Cloudian admin-API client: pagination, QoS parameters and NotFound errors

This project models the core of a Go client for the Cloudian storage platform's admin API
(package `cloudian`), as its tests pin it down:

- **Pagination** (`Paging`). The server answers a list request at `offset` with the records
  from that offset on, at most `ListLimit + 1` of them; a missing offset means 0 (`Window`).
  `ListUsers` keeps an `offset` and an accumulating sequence: a full answer of `ListLimit + 1`
  records proves another page exists, so its first `ListLimit` records are appended and the
  offset advances by `ListLimit`; a shorter answer is appended whole and ends the listing.
  The method is proved to return exactly the store, in order, for any store and any positive
  page size, after ceil(n / ListLimit) requests (one for an empty store). The test's store of 500
  users is built by an append loop (`BuildStore`) whose user IDs are proved distinct.
- **QoS update parameters** (`Client.QosQueryMap`). A user and a QoS value become a map with
  exactly twelve keys: `userId` and `groupId` copied from the user, and a hard and a warning
  level for the storage quota, the object count, the request rate and the inbound and outbound
  data rates. Byte quantities are sent in kilobytes (division by 1024, rounded down), every
  warning level is 75% of its hard level in the same unit (rounded down), and every number is a
  decimal string (`Decimal.Format`, proved to read back to the number it renders).
- **Errors** (`Errors`). Errors form a chain of `%w` wrappings; `Is` walks that chain as Go's
  `errors.Is` does, comparing against the `NotFound` sentinel. The
  `NotFound` sentinel survives any number of wrappings and an error made with `errors.New` never
  becomes `NotFound`. For `GetGroup` and `GetUser`, a 204 No Content response gives `NotFound`,
  a 200 gives no error, and any other status gives an unclassified status error.
- **Group translation** (`Translate`). `ToInternal` gives the wire form of a group, with the
  active flag as the string "true" or "false"; decoding accepts exactly those two literals and
  returns the group that was encoded. Which JSON form the flag takes is not visible in the test
  file; the string form follows the API's documented wire format.

The page size `ListLimit` is a package constant whose value is not part of this model; it is a
parameter required to be positive. Requests, responses and JSON bodies are replaced by function
arguments: a page request is a call to `Window`, a get response is its status code and the value
its body decodes to.

## Model

| member | source | states |
|---|---|---|
| `Decimal.Format` | internal/sdk/cloudian/sdk_test.go:154-155 | the `%d` / `strconv.Itoa` rendering of a number is a non-empty string of digits with no leading zero; 0 renders as "0" |
| `Decimal.ParseFormat` | internal/sdk/cloudian/sdk_test.go:154-168 | reading a rendered number back gives the number |
| `Decimal.FormatInjective` | internal/sdk/cloudian/sdk_test.go:118-121 | distinct numbers render to distinct strings, so `strconv.Itoa(i)` user IDs never collide |
| `Errors.IsInChain` | internal/sdk/cloudian/sdk_test.go:16-30 | `errors.Is(e, t)` holds exactly when `t` is on the unwrap chain of `e` |
| `Errors.WrapAll` | internal/sdk/cloudian/sdk_test.go:25 | wrapping with n contexts puts exactly n wrappers in front of the original unwrap chain, which follows unchanged |
| `Errors.WrapAllPreservesIs` | internal/sdk/cloudian/sdk_test.go:16-30 | for any non-wrapper target, wrapping neither creates nor hides an `errors.Is` match |
| `Errors.WrappedNotFound` | internal/sdk/cloudian/sdk_test.go:24-30 | `ErrNotFound` wrapped any number of times is still `ErrNotFound` |
| `Errors.GenericNeverNotFound` | internal/sdk/cloudian/sdk_test.go:16-22 | an `errors.New` error, wrapped any number of times, is never `ErrNotFound` |
| `Translate.ParseBool` | internal/sdk/cloudian/sdk_test.go:33-48 | the active flag decodes exactly from "true" and "false", back to the literal it came from; anything else is a decode error |
| `Translate.FromInternal` | internal/sdk/cloudian/sdk_test.go:37-48 | decoding a wire group succeeds exactly when its active flag is a boolean literal |
| `Translate.RoundTrip` | internal/sdk/cloudian/sdk_test.go:32-49 | decoding `toInternal(g)` gives `g` back |
| `Translate.WireRoundTrip` | internal/sdk/cloudian/sdk_test.go:37-48 | a wire group that decodes is the `toInternal` form of its decoding |
| `Client.GetStatusError` | internal/sdk/cloudian/sdk_test.go:192-218 | a get response gives no error exactly for 200, and a `NotFound` error exactly for 204 |
| `Client.GetGroup` | internal/sdk/cloudian/sdk_test.go:42-62 | `GetGroup` fails with `NotFound` exactly on 204, succeeds exactly on 200 with a decodable body, and returns the group whose wire form was served |
| `Client.GetGroupReturnsServedGroup` | internal/sdk/cloudian/sdk_test.go:32-49 | a server answering 200 with `toInternal(g)` makes `GetGroup` return `g` |
| `Client.GetUser` | internal/sdk/cloudian/sdk_test.go:192-218 | `GetUser` fails with `NotFound` exactly on 204, gives no error exactly on 200, and then returns the decoded body |
| `Client.QosQueryMap` | internal/sdk/cloudian/sdk_test.go:156-174 | the QoS map has exactly the twelve keys, with `userId` and `groupId` copied from the user |
| `Client.QosHardLevels` | internal/sdk/cloudian/sdk_test.go:159-181 | every numeric value is a digit string; counts and rates read back unchanged, byte quotas read back as whole kilobytes |
| `Client.WarningReadBack` | internal/sdk/cloudian/sdk_test.go:155 | a rendered warning level reads back as 75% of the rendered hard level, rounded down |
| `Client.QosWarningLevels` | internal/sdk/cloudian/sdk_test.go:159-168 | each of the five warning-level parameters is 75% of its hard-level parameter, rounded down |
| `Client.QosQueryMapExample` | internal/sdk/cloudian/sdk_test.go:153-185 | 1 GB, 1000, 200, 1 GB, 1 GB for user "1" of group "1" give "1048576"/"786432", "1000"/"750", "200"/"150" and the kilobyte data rates |
| `Paging.Window` | internal/sdk/cloudian/sdk_test.go:123-140 | the server's answer is the prefix of the store from the offset, of length min(ListLimit + 1, records left) |
| `Paging.MissingOffsetIsZero` | internal/sdk/cloudian/sdk_test.go:124-132 | a request without an offset reads the same window as offset 0 |
| `Paging.FullWindowMeansMore` | internal/sdk/cloudian/sdk_test.go:134-139 | an answer has ListLimit + 1 records exactly when records remain past its first ListLimit |
| `Paging.RequestCountIsCeiling` | internal/sdk/cloudian/sdk_test.go:134-146 | a listing of n records takes 1 request if n is 0 and ceil(n / ListLimit) otherwise |
| `Paging.ListUsers` | internal/sdk/cloudian/sdk_test.go:143-149 | `ListUsers` terminates and returns exactly the store, in order; it requests offsets 0, L, 2L, …, every answer but the last is full and the last is short |
| `Paging.BuildStore` | internal/sdk/cloudian/sdk_test.go:117-121 | the append loop builds users "0" … "n-1" of group "QA", in order, with distinct user IDs |
| `Paging.ListFiveHundredUsers` | internal/sdk/cloudian/sdk_test.go:117-149 | listing the 500 test users returns all 500, in order, without duplicates, in ceil(500 / ListLimit) requests (5 for a page size of 100) |

## Left out

- HTTP transport, the `httptest` mock servers, `context` cancellation and JSON encoding: a page
  request is a call to `Paging.Window`; a get response is its status code plus the decoded body.
- Parsing the `offset` query parameter with `strconv.Atoi` and the panic on a malformed offset:
  the offset is a natural number.
- `Paging.Window` requires the offset to be within the store; the Go slice expression would
  panic beyond it, and `Paging.ListUsers` is proved never to ask beyond it.
- The group ID and the optional user-status filter `ListUsers` sends with each page request: the
  mock server ignores them, so the model lists one store.
- Transport failures during a listing: `ListUsers` in this model cannot fail, since the server is a
  total function; errors from individual page requests are not modelled.
- The float expression `uint64(1*1024*1024*0.75)` is modelled by the integer `hard * 3 / 4`, which
  gives the same value for every fixture.
- `Client.QoS`: quantities are unbounded natural numbers; negative quotas, Go's truncating division of
  negative numbers, and the fixed width of Go's integers (`uint64` and `int64` wrap-around) are not
  modelled.
- `Translate.Group`: only the group ID, name and active flag are modelled; the wire shape of the
  remaining fields (LDAP settings, endpoint lists) is not visible in the source.
- `Client.GetUser`: a 200 response gives no error, also with an empty body (the test serves 200
  without a body and expects no error); the body is taken as already decoded, and the value the
  client returns for an empty body is not visible in the source.
- `Translate.ParseBool`: only the quoted-string form "true"/"false" of the active flag is modelled;
  a flag sent as a native JSON boolean is not, since the wire value is a string here.
- `Errors.Is`: errors are compared by value, not by pointer identity as Go does, so two separately
  made errors with the same message count as the same error here; the properties are meant for the
  `NotFound` sentinel and other non-wrapper targets (hence the requirement on
  `Errors.WrapAllPreservesIs`).
- Statuses other than 200 and 204 on a get give an unclassified `Status` error; the finer
  classification into validation and transport errors is not visible in the source.
- Credential operations (`CreateUserCredentials`, `GetUserCredentials`, `ListUserCredentials`)
  pass a body through unchanged and carry no logic worth modelling beyond JSON decoding.
- The documented rejection of a non-positive `ListLimit`: the source has a constant page size, so
  the model requires it to be positive.
