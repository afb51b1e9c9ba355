# HTTP status catalog

A Dafny model of a small Java library that maps HTTP status codes to a reason
phrase and a category. The library holds one catalog of 91 statuses, sorted
by code. Each status is a (code, reason phrase, category) triple. The one
query, `getHttpStatus(code)`, first range-checks the code against the first
and last entries. It then binary-searches the catalog. It returns the
matching status, or fails in one of two ways: out of range, or not found
(a code that falls in a gap of the numbering, such as 432).

The model has three modules:

- `Wrappers` (`wrappers.dfy`): `Option`, `Result` and `Outcome`, standing
  for the source's return-or-throw.
- `StatusType` (`http_status_type.dfy`): the enum `HttpStatusType`. It has
  five constants, each with the label `getType()` returns. It also has
  `ClassOf`, the category that section 15 of RFC 9110 assigns to a code by
  its first digit.
- `Status` (`http_status.dfy`): the `HttpStatus` record, the catalog and the
  lookup. The getters `getCode`, `getReason` and `getType` are the
  datatype's field destructors `code`, `reason` and `statusType`.

The catalog is a constant sequence, `AllSortedStatuses`. Its text is split
into blocks by class, and 4xx and 5xx are split again by decade. The blocks,
joined in order, give exactly the source array. The verifier checks each
entry of each block: its code is below the next one's, its reason is not
empty, and its category is the one its first digit gives. Lemmas then join
the blocks into facts about the whole catalog.

`findByCode` is the method `FindByCode`. It has the source's `while` loop over
`lp`/`rp` and the midpoint `lp + (rp - lp) / 2`. It is proved against `Find`,
a linear search from the front that serves as a reference definition.
`getHttpStatus` is the method `GetHttpStatus`. It is proved equal to
`Lookup`, the function that states the whole query. Every property of the
query is proved about `Lookup`. Because `Lookup` is a function, repeated
lookups of one code give identical results.

## Model

| member | source | states |
|---|---|---|
| StatusType.Ordinal | src/main/java/com/github/andrejoo2/http/HttpStatusType.java:6-31 | each constant's declaration position is below five and indexes that constant in the declaration-order list |
| StatusType.Label | src/main/java/com/github/andrejoo2/http/HttpStatusType.java:11-41 | every constant's label (the value getType returns) is non-empty and reads back, through the reverse mapping, to that same constant |
| StatusType.ClassOf | src/main/java/com/github/andrejoo2/http/HttpStatusType.java:8-31 | a category exists exactly for codes 100..599, and its position is the code's first digit minus one (1xx informational … 5xx server error) |
| StatusType.AllTypesComplete | src/main/java/com/github/andrejoo2/http/HttpStatusType.java:6-31 | there are exactly five constants, each listed once, in the order INFORMATIONAL, SUCCESS, REDIRECTION, CLIENT_ERROR, SERVER_ERROR |
| StatusType.FromLabelSound | src/main/java/com/github/andrejoo2/http/HttpStatusType.java:11-31 | a recognised label is the label of the constant it names; an unrecognised text is no constant's label |
| StatusType.LabelInjective | src/main/java/com/github/andrejoo2/http/HttpStatusType.java:11-31 | two constants have the same label exactly when they are the same constant |
| Status.CheckedFromSound | src/main/java/com/github/andrejoo2/http/HttpStatus.java:144-147 | the entry-by-entry check implies strictly increasing codes between any two later entries, and well-formed entries |
| Status.AppendSorted | src/main/java/com/github/andrejoo2/http/HttpStatus.java:150-251 | consecutive sorted blocks of the table, each starting above the previous one's end, form one sorted table |
| Status.CatalogChecked | src/main/java/com/github/andrejoo2/http/HttpStatus.java:144-251 | the catalog is strictly increasing by code (no duplicates), and every entry has a non-empty reason and the category of its code's first digit |
| Status.CatalogBounds | src/main/java/com/github/andrejoo2/http/HttpStatus.java:150-251 | the catalog has 91 entries, starts at 100, ends at 599, and every code lies in 100..599 |
| Status.ValidateCode | src/main/java/com/github/andrejoo2/http/HttpStatus.java:288-292 | the range check passes exactly for codes 100..599 and otherwise fails with OutOfRange carrying the code |
| Status.Find | src/main/java/com/github/andrejoo2/http/HttpStatus.java:265-270 | the reference search returns an entry of the sequence with the requested code, and finds nothing exactly when no entry has that code |
| Status.FindSorted | src/main/java/com/github/andrejoo2/http/HttpStatus.java:144-147 | in a sorted sequence the entry with a given code is unique, so searching for an entry's code returns that entry |
| Status.FindByCode | src/main/java/com/github/andrejoo2/http/HttpStatus.java:271-281 | on a sorted sequence, binary search returns the entry with the code when one exists and NotFound(code) otherwise; loop invariants keep 0 <= lp <= rp + 1 <= length and the code, if present, inside [lp, rp] |
| Status.GetHttpStatus | src/main/java/com/github/andrejoo2/http/HttpStatus.java:260-263 | range check then binary search gives exactly Lookup(code) |
| Status.LookupFindsEveryEntry | src/main/java/com/github/andrejoo2/http/HttpStatus.java:260-276 | looking up any catalog entry's code returns that same entry (code, reason and category) |
| Status.LookupHasCode | src/main/java/com/github/andrejoo2/http/HttpStatus.java:276 | a successful lookup returns a catalog entry whose code is the requested one |
| Status.LookupOutOfRange | src/main/java/com/github/andrejoo2/http/HttpStatus.java:288-291 | the lookup fails with OutOfRange exactly when the code is below 100 or above 599 |
| Status.LookupNotFound | src/main/java/com/github/andrejoo2/http/HttpStatus.java:274-280 | for codes in 100..599, the lookup fails with NotFound exactly when no catalog entry carries the code |
| Status.LookupErrors | src/main/java/com/github/andrejoo2/http/HttpStatus.java:271-292 | every failure is one of the two errors, carrying the requested code |
| Status.LookupCategory | src/main/java/com/github/andrejoo2/http/HttpStatus.java:150-250 | a found status has the category of its code's first digit and a non-empty reason |
| Status.NotInGap | src/main/java/com/github/andrejoo2/http/HttpStatus.java:274-280 | in a sorted sequence, a code strictly between two neighbouring codes belongs to no entry |
| Status.LookupExamples | src/main/java/com/github/andrejoo2/http/HttpStatus.java:158-199 | 200 gives "OK"/SUCCESS, 404 gives "Not Found"/CLIENT_ERROR, 418 gives "I'm a Teapot"/CLIENT_ERROR |
| Status.LookupFailureExamples | src/main/java/com/github/andrejoo2/http/HttpStatus.java:271-292 | 99 and 600 fail with OutOfRange; 432 fails with NotFound |
| Status.SharedReason | src/main/java/com/github/andrejoo2/http/HttpStatus.java:182-248 | 401 and 561 both have the reason "Unauthorized", 401 as a client error and 561 as a server error |

## Left out

- The exception messages built with `String.format`. Both failures throw `IllegalStateException` in the source; the model gives them distinct `LookupError` variants, each carrying the code.
- Java's 32-bit `int` for the code. The model takes an unbounded `int`. Every value outside 100..599 fails the range check, so no Java `int` behaves differently. The index arithmetic of the search cannot overflow on 91 entries.
- The array itself. The catalog is an immutable sequence, because it is never written after the static initialiser fills it. Static-initialisation timing and class loading are not modelled.
- Status.FindByCode: it takes the sorted sequence as a parameter, with sortedness as its precondition, rather than reading the static array. `GetHttpStatus` passes the catalog, whose sortedness is proved.
- The public `int` constants of `HttpStatus`. They appear only as the literal codes in the catalog.
- Thread safety. The data is immutable, so there is nothing to model.
- Whether the reason phrases follow RFC wording. The source's strings, such as "Early hints" and "Network Connect Timeout Error", are kept as written.
- The enum's built-in methods other than `values()` and `ordinal()` (`AllTypes`, `Ordinal`), such as `name()` and `valueOf`.
