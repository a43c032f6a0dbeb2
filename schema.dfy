/**
 * The `mood_submissions` table: the row type a select returns and the shape
 * an insert accepts. Timestamps are milliseconds since the epoch.
 */
module Schema {

  import opened Wrappers

  /**
   * A stored row. `id`, `mood`, `timestamp` and `consent` are NOT NULL columns,
   * so they are always present; `name` and `email` are nullable. `mood` is a
   * plain text column: any string is a storable mood.
   */
  datatype MoodSubmission = MoodSubmission(
    id: string,
    mood: string,
    name: Option<string>,
    email: Option<string>,
    timestamp: int,
    consent: bool)

  /**
   * The insert shape: the table's columns without `id` and `timestamp`.
   * `consent` has a column default, so an insert may leave it out.
   */
  datatype InsertMoodSubmission = InsertMoodSubmission(
    mood: string,
    name: Option<string>,
    email: Option<string>,
    consent: Option<bool>)

  /**
   * The row the database builds from an insert: `id` is the generated UUID,
   * `timestamp` the insertion time, and an omitted `consent` takes its
   * default, true.
   */
  function NewRow(ins: InsertMoodSubmission, uuid: string, now: int): (r: MoodSubmission)
    ensures r.id == uuid && r.timestamp == now
    ensures r.mood == ins.mood && r.name == ins.name && r.email == ins.email
    ensures r.consent <==> ins.consent != Some(false)
  {
    MoodSubmission(uuid, ins.mood, ins.name, ins.email, now, ins.consent.GetOr(true))
  }

  /** `id` is the primary key: no two rows share it. */
  ghost predicate UniqueIds(rows: seq<MoodSubmission>) {
    forall i, j :: 0 <= i < j < |rows| ==> rows[i].id != rows[j].id
  }

  predicate HasId(rows: seq<MoodSubmission>, id: string) {
    exists i :: 0 <= i < |rows| && rows[i].id == id
  }
}
