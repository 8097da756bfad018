/**
 * The schema of the `Request` collection: one document per item request,
 * with length-bounded name and item fields, a creation time, an optional
 * last-edit time and a four-valued status.
 */
module RequestModel {

  datatype Option<T> = None | Some(value: T)

  /** A point in time as a `Date` holds it: milliseconds since the epoch. */
  type Timestamp = int

  /** The values the schema's `status` enum admits. */
  datatype Status = Pending | Completed | Approved | Rejected

  /** The enum's strings, in the order the schema lists them. */
  const StatusEnum: seq<string> := ["pending", "completed", "approved", "rejected"]

  /** The string a status is stored and transmitted as. */
  function StatusName(s: Status): (t: string)
    ensures t in StatusEnum
  {
    match s
    case Pending => "pending"
    case Completed => "completed"
    case Approved => "approved"
    case Rejected => "rejected"
  }

  /** Reads a status string; only the enum's own strings are statuses. */
  function ParseStatus(t: string): (r: Option<Status>)
    ensures r.Some? <==> t in StatusEnum
    ensures r.Some? ==> StatusName(r.value) == t
  {
    if t == "pending" then Some(Pending)
    else if t == "completed" then Some(Completed)
    else if t == "approved" then Some(Approved)
    else if t == "rejected" then Some(Rejected)
    else None
  }

  /** Distinct statuses have distinct names, so a name determines its status. */
  lemma StatusNameRoundTrip(s: Status)
    ensures ParseStatus(StatusName(s)) == Some(s)
  {
  }

  const RequestorNameMinLength: nat := 3
  const RequestorNameMaxLength: nat := 30
  const ItemRequestedMinLength: nat := 2
  const ItemRequestedMaxLength: nat := 100

  /** A stored request document (without its identifier). */
  datatype Record = Record(
    requestorName: string,
    itemRequested: string,
    createdDate: Timestamp,
    lastEditedDate: Option<Timestamp>,
    status: Status)

  /**
   * The schema's validators: both strings required and within their
   * length bounds. `createdDate` and `status` are required, which the
   * datatype already guarantees, and `status` is in the enum by type.
   */
  predicate ValidRecord(r: Record) {
    && RequestorNameMinLength <= |r.requestorName| <= RequestorNameMaxLength
    && ItemRequestedMinLength <= |r.itemRequested| <= ItemRequestedMaxLength
  }

  /**
   * The fields handed to the model's constructor; a `None` is a field the
   * caller left out (or, for `lastEditedDate`, passed as null).
   */
  datatype Draft = Draft(
    requestorName: string,
    itemRequested: string,
    createdDate: Option<Timestamp>,
    lastEditedDate: Option<Timestamp>,
    status: Option<Status>)

  /**
   * Builds a document from a draft at clock time `now`, filling each
   * missing field with the schema's default.
   */
  function WithDefaults(d: Draft, now: Timestamp): (r: Record)
    ensures r.requestorName == d.requestorName && r.itemRequested == d.itemRequested
    ensures r.createdDate == (if d.createdDate.Some? then d.createdDate.value else now)
    ensures d.lastEditedDate.None? ==> r.lastEditedDate.None?
    ensures d.lastEditedDate.Some? ==> r.lastEditedDate == d.lastEditedDate
    ensures r.status == (if d.status.Some? then d.status.value else Pending)
  {
    Record(
      d.requestorName,
      d.itemRequested,
      match d.createdDate case Some(t) => t case None => now,
      match d.lastEditedDate case Some(t) => Some(t) case None => None,
      match d.status case Some(s) => s case None => Pending)
  }

  /**
   * A document built from only its two strings is created now, has never
   * been edited and is pending; it is valid exactly when its strings are.
   */
  lemma BareDraftDefaults(name: string, item: string, now: Timestamp)
    ensures WithDefaults(Draft(name, item, None, None, None), now)
         == Record(name, item, now, None, Pending)
    ensures ValidRecord(WithDefaults(Draft(name, item, None, None, None), now))
        <==> RequestorNameMinLength <= |name| <= RequestorNameMaxLength
             && ItemRequestedMinLength <= |item| <= ItemRequestedMaxLength
  {
  }
}
