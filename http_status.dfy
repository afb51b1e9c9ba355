/**
 * The catalog of HTTP statuses and the lookup over it (HttpStatus.java).
 *
 * An HttpStatus is an immutable (code, reason phrase, category) triple; the
 * class's getters getCode, getReason and getType are the datatype's field
 * destructors code, reason and statusType. The catalog is filled once and
 * never written again, so it is a constant sequence here.
 */
module Status {
  import opened Wrappers
  import opened StatusType

  datatype HttpStatus = HttpStatus(code: int, reason: string, statusType: HttpStatusType)

  /**
   * The two ways getHttpStatus fails. The source raises the same exception
   * type for both and tells them apart only by its message; each variant
   * carries the offending code.
   */
  datatype LookupError = OutOfRange(code: int) | NotFound(code: int)

  // The catalog, in ascending code order. It is written as consecutive
  // blocks (the source's class groups, 4xx and 5xx split further by decade)
  // whose concatenation is the source's single array; small blocks keep the
  // entry-by-entry check within the verifier's reach.

  /** 1xx: informational. */
  const Informational1xx: seq<HttpStatus> := [
    HttpStatus(100, "Continue", Informational),
    HttpStatus(101, "Switching Protocols", Informational),
    HttpStatus(102, "Processing", Informational),
    HttpStatus(103, "Early hints", Informational)
  ]

  /** 2xx: successful. */
  const Successful2xx: seq<HttpStatus> := [
    HttpStatus(200, "OK", Success),
    HttpStatus(201, "Created", Success),
    HttpStatus(202, "Accepted", Success),
    HttpStatus(203, "Non-Authoritative Information", Success),
    HttpStatus(204, "No Content", Success),
    HttpStatus(205, "Reset Content", Success),
    HttpStatus(206, "Partial Content", Success),
    HttpStatus(207, "Multi-Status", Success),
    HttpStatus(208, "Already Reported", Success),
    HttpStatus(226, "IM Used", Success)
  ]

  /** 3xx: redirection. */
  const Redirection3xx: seq<HttpStatus> := [
    HttpStatus(300, "Multiple Choices", Redirection),
    HttpStatus(301, "Moved Permanently", Redirection),
    HttpStatus(302, "Found", Redirection),
    HttpStatus(303, "See Other", Redirection),
    HttpStatus(304, "Not Modified", Redirection),
    HttpStatus(305, "Use Proxy", Redirection),
    HttpStatus(306, "Switch Proxy", Redirection),
    HttpStatus(307, "Temporary Redirect", Redirection),
    HttpStatus(308, "Permanent Redirect", Redirection)
  ]

  /** 4xx: client error, 400-409. */
  const ClientError400s: seq<HttpStatus> := [
    HttpStatus(400, "Bad Request", ClientError),
    HttpStatus(401, "Unauthorized", ClientError),
    HttpStatus(402, "Payment Required", ClientError),
    HttpStatus(403, "Forbidden", ClientError),
    HttpStatus(404, "Not Found", ClientError),
    HttpStatus(405, "Method Not Allowed", ClientError),
    HttpStatus(406, "Not Acceptable", ClientError),
    HttpStatus(407, "Proxy Authentication Required", ClientError),
    HttpStatus(408, "Request Timeout", ClientError),
    HttpStatus(409, "Conflict", ClientError)
  ]

  /** 4xx: client error, 410-418. */
  const ClientError410s: seq<HttpStatus> := [
    HttpStatus(410, "Gone", ClientError),
    HttpStatus(411, "Length Required", ClientError),
    HttpStatus(412, "Precondition Failed", ClientError),
    HttpStatus(413, "Payload Too Large", ClientError),
    HttpStatus(414, "URI Too Long", ClientError),
    HttpStatus(415, "Unsupported Media Type", ClientError),
    HttpStatus(416, "Range Not Satisfiable", ClientError),
    HttpStatus(417, "Expectation Failed", ClientError),
    HttpStatus(418, "I'm a Teapot", ClientError)
  ]

  /** 4xx: client error, 421-431. */
  const ClientError420s: seq<HttpStatus> := [
    HttpStatus(421, "Misdirected Request", ClientError),
    HttpStatus(422, "Unprocessable Entity", ClientError),
    HttpStatus(423, "Locked", ClientError),
    HttpStatus(424, "Failed Dependency", ClientError),
    HttpStatus(425, "Too Early", ClientError),
    HttpStatus(426, "Upgrade Required", ClientError),
    HttpStatus(428, "Precondition Required", ClientError),
    HttpStatus(429, "Too Many Requests", ClientError),
    HttpStatus(430, "HTTP Status Code", ClientError),
    HttpStatus(431, "Request Header Fields Too Large", ClientError)
  ]

  /** 4xx: client error, 440-464 (vendor and non-standard). */
  const ClientError440s: seq<HttpStatus> := [
    HttpStatus(440, "Login Time-Out", ClientError),
    HttpStatus(444, "No Response", ClientError),
    HttpStatus(449, "Retry With", ClientError),
    HttpStatus(450, "Blocked by Windows Parental Controls", ClientError),
    HttpStatus(451, "Unavailable For Legal Reasons", ClientError),
    HttpStatus(460, "Client Closed Connection Prematurely", ClientError),
    HttpStatus(463, "Too Many Forwarded IP Addresses", ClientError),
    HttpStatus(464, "Incompatible Protocol", ClientError)
  ]

  /** 4xx: client error, 494-499 (vendor and non-standard). */
  const ClientError490s: seq<HttpStatus> := [
    HttpStatus(494, "Request Header Too Large", ClientError),
    HttpStatus(495, "SSL Certificate Error", ClientError),
    HttpStatus(496, "SSL Certificate Required", ClientError),
    HttpStatus(497, "HTTP Request Sent to HTTPS Port", ClientError),
    HttpStatus(498, "Invalid Token", ClientError),
    HttpStatus(499, "Token Required or Client Closed Request", ClientError)
  ]

  /** 5xx: server error, 500-511. */
  const ServerError500s: seq<HttpStatus> := [
    HttpStatus(500, "Internal Server Error", ServerError),
    HttpStatus(501, "Not Implemented", ServerError),
    HttpStatus(502, "Bad Gateway", ServerError),
    HttpStatus(503, "Service Unavailable", ServerError),
    HttpStatus(504, "Gateway Timeout", ServerError),
    HttpStatus(505, "HTTP Version Not Supported", ServerError),
    HttpStatus(506, "Variant Also Negotiates", ServerError),
    HttpStatus(507, "Insufficient Storage", ServerError),
    HttpStatus(508, "Loop Detected", ServerError),
    HttpStatus(509, "Bandwidth Limit Exceeded", ServerError),
    HttpStatus(510, "Not Extended", ServerError),
    HttpStatus(511, "Network Authentication Required", ServerError)
  ]

  /** 5xx: server error, 520-530 (vendor and non-standard). */
  const ServerError520s: seq<HttpStatus> := [
    HttpStatus(520, "Web Server Is Returning an Unknown Error", ServerError),
    HttpStatus(521, "Web Server Is Down", ServerError),
    HttpStatus(522, "Connection Timed Out", ServerError),
    HttpStatus(523, "Origin Is Unreachable", ServerError),
    HttpStatus(524, "A Timeout Occurred", ServerError),
    HttpStatus(525, "SSL Handshake Failed", ServerError),
    HttpStatus(526, "Invalid SSL Certificate", ServerError),
    HttpStatus(527, "Railgun Listener to Origin", ServerError),
    HttpStatus(529, "The Service Is Overloaded", ServerError),
    HttpStatus(530, "Site Frozen", ServerError)
  ]

  /** 5xx: server error, 561-599 (vendor and non-standard). */
  const ServerError560s: seq<HttpStatus> := [
    HttpStatus(561, "Unauthorized", ServerError),
    HttpStatus(598, "Network Read Timeout Error", ServerError),
    HttpStatus(599, "Network Connect Timeout Error", ServerError)
  ]

  /** The 4xx group. */
  const ClientErrors4xx: seq<HttpStatus> :=
    ClientError400s + ClientError410s + ClientError420s + ClientError440s + ClientError490s

  /** The 5xx group. */
  const ServerErrors5xx: seq<HttpStatus> :=
    ServerError500s + ServerError520s + ServerError560s

  /** The catalog: every status, sorted by code. */
  const AllSortedStatuses: seq<HttpStatus> :=
    Informational1xx + Successful2xx + Redirection3xx + ClientErrors4xx + ServerErrors5xx

  /** Codes strictly increase along `s`: no code appears twice. */
  predicate Sorted(s: seq<HttpStatus>)
  {
    forall i, j :: 0 <= i < j < |s| ==> s[i].code < s[j].code
  }

  /** Whether an entry is well formed: a non-empty reason and the category of its first digit. */
  predicate WellFormedEntry(e: HttpStatus)
  {
    |e.reason| > 0 && ClassOf(e.code) == Some(e.statusType)
  }

  /**
   * Entry-by-entry check of `s` from index `i` on: each entry is well formed
   * and has a smaller code than the next one.
   */
  predicate CheckedFrom(s: seq<HttpStatus>, i: nat)
    decreases |s| - i
  {
    i >= |s| ||
    (WellFormedEntry(s[i]) &&
     (i + 1 < |s| ==> s[i].code < s[i + 1].code) &&
     CheckedFrom(s, i + 1))
  }

  /** The entry-by-entry check gives the order and shape of every later entry. */
  lemma {:induction false} CheckedFromSound(s: seq<HttpStatus>, i: nat)
    requires CheckedFrom(s, i)
    ensures forall j, k :: i <= j < k < |s| ==> s[j].code < s[k].code
    ensures forall j :: i <= j < |s| ==> WellFormedEntry(s[j])
    decreases |s| - i
  {
    if i < |s| {
      CheckedFromSound(s, i + 1);
      forall j, k | i <= j < k < |s| ensures s[j].code < s[k].code {
        if j == i && i + 1 < k {
          assert s[i + 1].code < s[k].code;
        }
      }
    }
  }

  /** Every entry of `s` is well formed. */
  predicate AllWellFormed(s: seq<HttpStatus>)
  {
    forall i :: 0 <= i < |s| ==> WellFormedEntry(s[i])
  }

  /**
   * Two sorted runs of well-formed entries, the second starting above where
   * the first ends, join into one.
   */
  lemma AppendSorted(a: seq<HttpStatus>, b: seq<HttpStatus>)
    requires Sorted(a) && AllWellFormed(a)
    requires Sorted(b) && AllWellFormed(b)
    requires |a| > 0 && |b| > 0 ==> a[|a| - 1].code < b[0].code
    ensures Sorted(a + b) && AllWellFormed(a + b)
  {
    var ab := a + b;
    forall i, j | 0 <= i < j < |ab| ensures ab[i].code < ab[j].code {
      if i < |a| && |a| <= j {
        assert ab[i].code <= a[|a| - 1].code;
        assert b[0].code <= ab[j].code;
      }
    }
    forall i | 0 <= i < |ab| ensures WellFormedEntry(ab[i]) {
      if i >= |a| {
        assert ab[i] == b[i - |a|];
      }
    }
  }

  // Each block passes the entry-by-entry check, by evaluation, and so is
  // sorted with well-formed entries.

  lemma Informational1xxChecked()
    ensures Sorted(Informational1xx) && AllWellFormed(Informational1xx)
  {
    CheckedFromSound(Informational1xx, 0);
  }

  lemma Successful2xxChecked()
    ensures Sorted(Successful2xx) && AllWellFormed(Successful2xx)
  {
    CheckedFromSound(Successful2xx, 0);
  }

  lemma Redirection3xxChecked()
    ensures Sorted(Redirection3xx) && AllWellFormed(Redirection3xx)
  {
    CheckedFromSound(Redirection3xx, 0);
  }

  lemma ClientError400sChecked()
    ensures Sorted(ClientError400s) && AllWellFormed(ClientError400s)
  {
    CheckedFromSound(ClientError400s, 0);
  }

  lemma ClientError410sChecked()
    ensures Sorted(ClientError410s) && AllWellFormed(ClientError410s)
  {
    CheckedFromSound(ClientError410s, 0);
  }

  lemma ClientError420sChecked()
    ensures Sorted(ClientError420s) && AllWellFormed(ClientError420s)
  {
    CheckedFromSound(ClientError420s, 0);
  }

  lemma ClientError440sChecked()
    ensures Sorted(ClientError440s) && AllWellFormed(ClientError440s)
  {
    CheckedFromSound(ClientError440s, 0);
  }

  lemma ClientError490sChecked()
    ensures Sorted(ClientError490s) && AllWellFormed(ClientError490s)
  {
    CheckedFromSound(ClientError490s, 0);
  }

  lemma ServerError500sChecked()
    ensures Sorted(ServerError500s) && AllWellFormed(ServerError500s)
  {
    CheckedFromSound(ServerError500s, 0);
  }

  lemma ServerError520sChecked()
    ensures Sorted(ServerError520s) && AllWellFormed(ServerError520s)
  {
    CheckedFromSound(ServerError520s, 0);
  }

  lemma ServerError560sChecked()
    ensures Sorted(ServerError560s) && AllWellFormed(ServerError560s)
  {
    CheckedFromSound(ServerError560s, 0);
  }

  /** The 4xx group is sorted by code and its entries are well formed. */
  lemma ClientErrorsChecked()
    ensures Sorted(ClientErrors4xx) && AllWellFormed(ClientErrors4xx)
  {
    ClientError400sChecked();
    var s := ClientError400s;
    ClientError410sChecked();
    AppendSorted(s, ClientError410s);
    s := s + ClientError410s;
    ClientError420sChecked();
    AppendSorted(s, ClientError420s);
    s := s + ClientError420s;
    ClientError440sChecked();
    AppendSorted(s, ClientError440s);
    s := s + ClientError440s;
    ClientError490sChecked();
    AppendSorted(s, ClientError490s);
    s := s + ClientError490s;
    assert s == ClientErrors4xx;
  }

  /** The 5xx group is sorted by code and its entries are well formed. */
  lemma ServerErrorsChecked()
    ensures Sorted(ServerErrors5xx) && AllWellFormed(ServerErrors5xx)
  {
    ServerError500sChecked();
    var s := ServerError500s;
    ServerError520sChecked();
    AppendSorted(s, ServerError520s);
    s := s + ServerError520s;
    ServerError560sChecked();
    AppendSorted(s, ServerError560s);
    s := s + ServerError560s;
    assert s == ServerErrors5xx;
  }

  /** The catalog is sorted by code and every entry is well formed. */
  lemma CatalogChecked()
    ensures Sorted(AllSortedStatuses) && AllWellFormed(AllSortedStatuses)
  {
    Informational1xxChecked();
    var s := Informational1xx;
    Successful2xxChecked();
    AppendSorted(s, Successful2xx);
    s := s + Successful2xx;
    Redirection3xxChecked();
    AppendSorted(s, Redirection3xx);
    s := s + Redirection3xx;
    ClientErrorsChecked();
    AppendSorted(s, ClientErrors4xx);
    s := s + ClientErrors4xx;
    ServerErrorsChecked();
    AppendSorted(s, ServerErrors5xx);
    s := s + ServerErrors5xx;
    assert s == AllSortedStatuses;
  }

  /** The catalog's size and its first and last codes, which bound the range check. */
  lemma CatalogBounds()
    ensures |AllSortedStatuses| == 91
    ensures AllSortedStatuses[0].code == 100
    ensures AllSortedStatuses[|AllSortedStatuses| - 1].code == 599
    ensures forall i :: 0 <= i < |AllSortedStatuses| ==> 100 <= AllSortedStatuses[i].code <= 599
  {
    CatalogChecked();
  }

  /**
   * validateCode: a code below the first entry's or above the last entry's
   * is rejected as out of range.
   */
  function ValidateCode(code: int): (o: Outcome<LookupError>)
    ensures o == Pass <==> 100 <= code <= 599
    ensures o.Fail? ==> o.error == OutOfRange(code)
  {
    CatalogBounds();
    if code < AllSortedStatuses[0].code || code > AllSortedStatuses[|AllSortedStatuses| - 1].code then
      Fail(OutOfRange(code))
    else
      Pass
  }

  /**
   * Reference definition of a search by code, independent of the order of
   * `s`: the first entry whose code is `code`, scanning from the front.
   */
  function Find(s: seq<HttpStatus>, code: int): (r: Option<HttpStatus>)
    ensures r.Some? ==> r.value in s && r.value.code == code
    ensures r.None? <==> forall i :: 0 <= i < |s| ==> s[i].code != code
  {
    if s == [] then None
    else if s[0].code == code then Some(s[0])
    else Find(s[1..], code)
  }

  /** In a sorted sequence the entry with a given code is unique, so Find returns it. */
  lemma FindSorted(s: seq<HttpStatus>, i: int)
    requires Sorted(s)
    requires 0 <= i < |s|
    ensures Find(s, s[i].code) == Some(s[i])
  {
  }

  /**
   * findByCode: binary search of the sorted `statuses` for `code`. It hands
   * back the entry with that code, or fails with NotFound when the window
   * [lp, rp] runs empty.
   */
  method FindByCode(statuses: seq<HttpStatus>, code: int) returns (r: Result<HttpStatus, LookupError>)
    requires Sorted(statuses)
    ensures Find(statuses, code).Some? ==> r == Ok(Find(statuses, code).value)
    ensures Find(statuses, code).None? ==> r == Err(NotFound(code))
  {
    var lp := 0;
    var rp := |statuses| - 1;
    while lp <= rp
      invariant 0 <= lp <= rp + 1 <= |statuses|
      // the code, if present, lies inside [lp, rp]
      invariant forall i :: 0 <= i < lp ==> statuses[i].code < code
      invariant forall i :: rp < i < |statuses| ==> code < statuses[i].code
      decreases rp - lp
    {
      // (rp - lp) / 2 is never negative here, so Java's truncating division agrees with Dafny's
      var mp := lp + (rp - lp) / 2;
      if code == statuses[mp].code {
        FindSorted(statuses, mp);
        return Ok(statuses[mp]);
      } else if code < statuses[mp].code {
        rp := mp - 1;
      } else {
        lp := mp + 1;
      }
    }
    return Err(NotFound(code));
  }

  /**
   * What getHttpStatus answers for `code`: the range check first, then the
   * catalog entry with that code, found by the reference search.
   */
  function Lookup(code: int): (r: Result<HttpStatus, LookupError>)
  {
    match ValidateCode(code)
    case Fail(e) => Err(e)
    case Pass =>
      match Find(AllSortedStatuses, code)
      case Some(e) => Ok(e)
      case None => Err(NotFound(code))
  }

  /** getHttpStatus: validate the code, then binary-search the catalog. */
  method GetHttpStatus(code: int) returns (r: Result<HttpStatus, LookupError>)
    ensures r == Lookup(code)
  {
    match ValidateCode(code)
    case Fail(e) =>
      return Err(e);
    case Pass =>
      CatalogChecked();
      r := FindByCode(AllSortedStatuses, code);
  }

  /** Looking up the code of any catalog entry gives back that same entry. */
  lemma LookupFindsEveryEntry(i: int)
    requires 0 <= i < |AllSortedStatuses|
    ensures Lookup(AllSortedStatuses[i].code) == Ok(AllSortedStatuses[i])
  {
    CatalogChecked();
    CatalogBounds();
    FindSorted(AllSortedStatuses, i);
  }

  /** A successful lookup returns a catalog entry carrying the requested code. */
  lemma LookupHasCode(code: int)
    ensures Lookup(code).Ok? ==> Lookup(code).value in AllSortedStatuses
    ensures Lookup(code).Ok? ==> Lookup(code).value.code == code
  {
  }

  /** The lookup fails as out of range exactly for codes outside 100..599. */
  lemma LookupOutOfRange(code: int)
    ensures Lookup(code) == Err(OutOfRange(code)) <==> code < 100 || code > 599
  {
  }

  /** Inside 100..599, the lookup fails as not found exactly for codes no entry carries. */
  lemma LookupNotFound(code: int)
    requires 100 <= code <= 599
    ensures Lookup(code) == Err(NotFound(code)) <==>
            forall i :: 0 <= i < |AllSortedStatuses| ==> AllSortedStatuses[i].code != code
  {
  }

  /** A lookup fails in exactly one of the two ways, each carrying the code. */
  lemma LookupErrors(code: int)
    ensures Lookup(code).Err? ==>
            Lookup(code).error == OutOfRange(code) || Lookup(code).error == NotFound(code)
  {
  }

  /** Every entry found has the category of its code's first digit, and a non-empty reason. */
  lemma LookupCategory(code: int)
    ensures Lookup(code).Ok? ==> ClassOf(code) == Some(Lookup(code).value.statusType)
    ensures Lookup(code).Ok? ==> |Lookup(code).value.reason| > 0
  {
    CatalogChecked();
  }

  /** A code strictly between two neighbouring codes of a sorted sequence is carried by no entry. */
  lemma NotInGap(s: seq<HttpStatus>, k: int, code: int)
    requires Sorted(s)
    requires 0 <= k && k + 1 < |s|
    requires s[k].code < code < s[k + 1].code
    ensures forall i :: 0 <= i < |s| ==> s[i].code != code
  {
    forall i | 0 <= i < |s| ensures s[i].code != code {
      if i < k {
        assert s[i].code < s[k].code;
      } else if i > k + 1 {
        assert s[k + 1].code < s[i].code;
      }
    }
  }

  /** Lookups of standard codes, and of 418 (RFC 2324 and RFC 7168). */
  lemma LookupExamples()
    ensures Lookup(200) == Ok(HttpStatus(200, "OK", Success))
    ensures Lookup(404) == Ok(HttpStatus(404, "Not Found", ClientError))
    ensures Lookup(418) == Ok(HttpStatus(418, "I'm a Teapot", ClientError))
  {
    LookupFindsEveryEntry(4);
    LookupFindsEveryEntry(27);
    LookupFindsEveryEntry(41);
  }

  /** Codes outside the catalog's range, and 432, which falls in a gap of the numbering. */
  lemma LookupFailureExamples()
    ensures Lookup(99) == Err(OutOfRange(99))
    ensures Lookup(600) == Err(OutOfRange(600))
    ensures Lookup(432) == Err(NotFound(432))
  {
    CatalogChecked();
    assert AllSortedStatuses[51].code == 431 && AllSortedStatuses[52].code == 440;
    NotInGap(AllSortedStatuses, 51, 432);
  }

  /**
   * Reasons are not unique: 401 and 561 are both "Unauthorized", one a client
   * error and the other a server error.
   */
  lemma SharedReason()
    ensures Lookup(401) == Ok(HttpStatus(401, "Unauthorized", ClientError))
    ensures Lookup(561) == Ok(HttpStatus(561, "Unauthorized", ServerError))
  {
    LookupFindsEveryEntry(24);
    LookupFindsEveryEntry(88);
  }
}
