/**
 * The five categories of HTTP status codes (HttpStatusType.java), each with
 * the display label the enum constant is constructed with.
 */
module StatusType {
  import opened Wrappers

  /** The enum constants, in declaration order. */
  datatype HttpStatusType =
    | Informational   // 1xx
    | Success         // 2xx
    | Redirection     // 3xx
    | ClientError     // 4xx
    | ServerError     // 5xx

  /** The constants as the enum's values() lists them, in declaration order. */
  const AllTypes: seq<HttpStatusType> :=
    [Informational, Success, Redirection, ClientError, ServerError]

  /** Zero-based declaration position of a constant (the enum's ordinal()). */
  function Ordinal(t: HttpStatusType): (n: nat)
    ensures n < |AllTypes| && AllTypes[n] == t
  {
    match t
    case Informational => 0
    case Success => 1
    case Redirection => 2
    case ClientError => 3
    case ServerError => 4
  }

  /**
   * The label each constant is constructed with and getType() hands back
   * unchanged. The capitalisation is the source's own ("Client error" but
   * "Server Error").
   */
  function Label(t: HttpStatusType): (text: string)
    ensures |text| > 0
    ensures FromLabel(text) == Some(t)
  {
    match t
    case Informational => "Informational"
    case Success => "Success"
    case Redirection => "Redirection"
    case ClientError => "Client error"
    case ServerError => "Server Error"
  }

  /** Reverse of Label: the constant whose label is exactly `text`, if any. */
  function FromLabel(text: string): (r: Option<HttpStatusType>)
  {
    if text == "Informational" then Some(Informational)
    else if text == "Success" then Some(Success)
    else if text == "Redirection" then Some(Redirection)
    else if text == "Client error" then Some(ClientError)
    else if text == "Server Error" then Some(ServerError)
    else None
  }

  /**
   * The category RFC 9110 section 15 assigns to a three-digit code by its
   * first digit; None for codes outside 100..599.
   */
  function ClassOf(code: int): (r: Option<HttpStatusType>)
    ensures r.Some? <==> 100 <= code <= 599
    ensures r.Some? ==> Ordinal(r.value) == code / 100 - 1
  {
    if 100 <= code <= 599 then Some(AllTypes[code / 100 - 1]) else None
  }

  /** There are exactly five constants, listed once each in declaration order. */
  lemma AllTypesComplete(t: HttpStatusType)
    ensures |AllTypes| == 5
    ensures t in AllTypes
    ensures forall i, j :: 0 <= i < j < |AllTypes| ==> AllTypes[i] != AllTypes[j]
  {
  }

  /** A label recognised by FromLabel is the label of the constant it names. */
  lemma FromLabelSound(text: string)
    ensures FromLabel(text).Some? ==> Label(FromLabel(text).value) == text
    ensures FromLabel(text).None? ==> forall t :: Label(t) != text
  {
  }

  /** The labels are pairwise distinct: the label determines the constant. */
  lemma LabelInjective(a: HttpStatusType, b: HttpStatusType)
    ensures Label(a) == Label(b) <==> a == b
  {
  }
}
