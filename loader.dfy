/**
 * The two scalars computed once when the table is loaded: the smallest and the
 * largest payload mass, which become the payload slider's default range.
 * On an empty table pandas yields NaN for both; here that is `None`.
 */
module Loader {
  import opened Wrappers
  import opened LaunchTable

  /** `spacex_df['Payload Mass (kg)'].max()`. */
  function MaxPayload(t: Table): (m: Option<int>)
    ensures m.None? <==> t == []
    ensures m.Some? ==> exists r :: r in t && r.payload == m.value
    ensures m.Some? ==> forall r :: r in t ==> r.payload <= m.value
    decreases |t|
  {
    if t == [] then None
    else
      match MaxPayload(t[1..])
      case None => Some(t[0].payload)
      case Some(rest) => Some(if t[0].payload >= rest then t[0].payload else rest)
  }

  /** `spacex_df['Payload Mass (kg)'].min()`. */
  function MinPayload(t: Table): (m: Option<int>)
    ensures m.None? <==> t == []
    ensures m.Some? ==> exists r :: r in t && r.payload == m.value
    ensures m.Some? ==> forall r :: r in t ==> m.value <= r.payload
    decreases |t|
  {
    if t == [] then None
    else
      match MinPayload(t[1..])
      case None => Some(t[0].payload)
      case Some(rest) => Some(if t[0].payload <= rest then t[0].payload else rest)
  }

  /** The slider's default `[min_payload, max_payload]` is a well-ordered range holding every row. */
  lemma PayloadBounds(t: Table)
    requires t != []
    ensures MinPayload(t).value <= MaxPayload(t).value
    ensures forall r :: r in t ==> MinPayload(t).value <= r.payload <= MaxPayload(t).value
  {
    assert t[0] in t;
  }
}
