/**
 * src/features/moderation/api.ts: reading the user's block list, as ids and
 * as profiles, and testing whether one user has blocked another. The
 * queries' answers are parameters.
 */
module ModerationApi {
  import opened Wrappers

  /** A column value of a joined profile. */
  datatype Field = Text(text: string) | Number(number: real) | NullValue

  /** A row of the blocks query with the blocked user's profile joined (`None` when the join found none). */
  datatype BlockRow = BlockRow(blockedId: string, profile: Option<map<string, Field>>)

  /** `{ data, error }` of a `.single()` query: `data` is null unless exactly one row came back. */
  datatype SingleResponse<T> = SingleResponse(data: Option<T>, error: Option<DbError>)

  /** The PostgREST code `.single()` reports when no row matched. */
  const RowNotFound: string := "PGRST116"

  /** `fetchBlockedUsers`: the query error thrown as is, or the blocked id of each row, in order. */
  function FetchBlockedUsers(response: Result<seq<BlockRow>, DbError>): (r: Result<seq<string>, Thrown>)
    ensures response.Err? ==> r == Err(DbThrown(response.error))
    ensures response.Ok? ==> r.Ok? && |r.value| == |response.value|
                             && forall i :: 0 <= i < |r.value| ==> r.value[i] == response.value[i].blockedId
  {
    match response
    case Err(e) => Err(DbThrown(e))
    case Ok(rows) => Ok(seq(|rows|, i requires 0 <= i < |rows| => rows[i].blockedId))
  }

  /** `{ ...row.profiles, id: row.blocked_id }`; spreading a missing profile adds nothing. */
  function FlattenProfile(row: BlockRow): (p: map<string, Field>)
    ensures "id" in p && p["id"] == Text(row.blockedId)
    ensures row.profile.None? ==> p.Keys == {"id"}
    ensures row.profile.Some? ==> p.Keys == row.profile.value.Keys + {"id"}
    ensures row.profile.Some? ==> forall k :: k in row.profile.value && k != "id" ==> p[k] == row.profile.value[k]
  {
    var base := if row.profile.Some? then row.profile.value else map[];
    base["id" := Text(row.blockedId)]
  }

  /**
   * `fetchBlockedProfiles`: the query error thrown as is, or one flattened
   * profile per row, in order, whose `id` is the row's blocked id whatever
   * the joined profile says.
   */
  function FetchBlockedProfiles(response: Result<seq<BlockRow>, DbError>): (r: Result<seq<map<string, Field>>, Thrown>)
    ensures response.Err? ==> r == Err(DbThrown(response.error))
    ensures response.Ok? ==> r.Ok? && |r.value| == |response.value|
    ensures response.Ok? ==> forall i :: 0 <= i < |r.value| ==>
              "id" in r.value[i] && r.value[i]["id"] == Text(response.value[i].blockedId)
              && r.value[i] == FlattenProfile(response.value[i])
  {
    match response
    case Err(e) => Err(DbThrown(e))
    case Ok(rows) => Ok(seq(|rows|, i requires 0 <= i < |rows| => FlattenProfile(rows[i])))
  }

  /**
   * The blocked ids and the flattened profiles of the same answer list the
   * same users in the same order.
   */
  lemma BlockedProfilesMatchIds(response: Result<seq<BlockRow>, DbError>)
    ensures FetchBlockedUsers(response).Ok? <==> FetchBlockedProfiles(response).Ok?
    ensures FetchBlockedUsers(response).Ok? ==>
              var ids := FetchBlockedUsers(response).value;
              var profiles := FetchBlockedProfiles(response).value;
              |ids| == |profiles| && forall i :: 0 <= i < |ids| ==> profiles[i]["id"] == Text(ids[i])
  {
  }

  /**
   * `checkIfBlocked`: "no row" is not an error, it is the answer false; any
   * other error is thrown; otherwise the answer is whether a row came back.
   */
  function CheckIfBlocked<T>(response: SingleResponse<T>): (r: Result<bool, Thrown>)
    ensures r.Err? <==> response.error.Some? && response.error.value.code != RowNotFound
    ensures r.Err? ==> r.error == DbThrown(response.error.value)
    ensures r.Ok? ==> (r.value <==> response.data.Some?)
  {
    if response.error.Some? && response.error.value.code != RowNotFound then Err(DbThrown(response.error.value))
    else Ok(response.data.Some?)
  }
}
