/** The database row types shared by the `src/app` pages (lib/supabase.ts):
    influencers and outreach-log entries, with their enumerated fields, and the
    outcome of a select query as the pages receive it. */
module Schema {
  import opened Wrappers

  /** The outreach pipeline stage of an influencer. */
  datatype CollaborationStatus = Pending | Contacted | Interested | Negotiating | Confirmed | Declined
  {
    /** The string stored in the `collaboration_status` column. */
    function Name(): string
    {
      match this
      case Pending => "pending"
      case Contacted => "contacted"
      case Interested => "interested"
      case Negotiating => "negotiating"
      case Confirmed => "confirmed"
      case Declined => "declined"
    }
  }

  /** Reads a `collaboration_status` column value back into the enumeration;
      any other string is not a status. */
  function ParseStatus(s: string): (r: Option<CollaborationStatus>)
    ensures forall st: CollaborationStatus :: r == Some(st) <==> st.Name() == s
  {
    if s == "pending" then Some(Pending)
    else if s == "contacted" then Some(Contacted)
    else if s == "interested" then Some(Interested)
    else if s == "negotiating" then Some(Negotiating)
    else if s == "confirmed" then Some(Confirmed)
    else if s == "declined" then Some(Declined)
    else None
  }

  /** How an outreach attempt was made. */
  datatype ContactMethod = Email | Phone | Dm | Whatsapp

  /** What came of an outreach attempt. */
  datatype ResponseStatus = Sent | Delivered | Read | Replied | NoResponse

  /** A row of the `influencers` table. The declaration types `followers` and
      `engagement_rate` as numbers, but the dashboard guards both with `|| 0`
      against rows where they are null, so the model lets them be absent.
      `engagement_rate` is a percentage; an exact rational stands in for the
      double. `collaboration_status` holds the raw column string, which the
      declaration restricts to `CollaborationStatus.Name()` values. */
  datatype Influencer = Influencer(
    id: int,
    name: string,
    platform: string,
    followers: Option<int>,
    engagement_rate: Option<real>,
    niche: string,
    email: string,
    phone: string,
    location: string,
    content_type: string,
    collaboration_status: string,
    notes: string,
    created_at: string,
    updated_at: string)

  /** A row of the `outreach_log` table. */
  datatype OutreachLog = OutreachLog(
    id: int,
    influencer_id: int,
    contact_date: string,
    contact_method: ContactMethod,
    message_content: string,
    response_status: ResponseStatus,
    follow_up_date: string,
    notes: string,
    created_at: string)

  /** What a failed remote call threw: an `Error` object with its message, or some
      other value. */
  datatype Failure = ErrorObject(message: string) | OtherValue

  /** The outcome of a select query: its `data` (possibly null) or what it threw. */
  datatype Fetch<T> = Rows(data: Option<seq<T>>) | Thrown(failure: Failure)

  /** `data || []`. */
  function RowsOrEmpty<T>(data: Option<seq<T>>): (r: seq<T>)
    ensures data.None? ==> r == []
    ensures data.Some? ==> r == data.value
  {
    if data.Some? then data.value else []
  }
}
