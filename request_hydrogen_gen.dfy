/**
 * The hydrogen request generator (src/request_hydrogen_gen/run.py): once per
 * simulated day of 96 ticks it requests a random amount of hydrogen around the
 * daily maximal output.
 */
module RequestHydrogenGen {
  import opened Common
  import ModCounter

  /** `LIMIT = 24*4`: ticks per day. */
  const LIMIT: nat := 96
  /** `MAX_OUTPUT`: kg of hydrogen per day. */
  const MAX_OUTPUT: real := 430.0
  /** The bounds of the draw, `int(MAX_OUTPUT/1.25)` and `int(MAX_OUTPUT*1.25)`. */
  const LOW: int := (MAX_OUTPUT / 1.25).Floor
  const HIGH: int := (MAX_OUTPUT * 1.25).Floor

  /** The published request. */
  datatype HydrogenRequest = HydrogenRequest(hydrogen: int, timestamp: string)

  /** The draw lies in [344, 537]. */
  lemma DrawBounds()
    ensures LOW == 344 && HIGH == 537
  {
    assert MAX_OUTPUT / 1.25 == 344.0;
    assert MAX_OUTPUT * 1.25 == 537.5;
  }

  class Generator {
    var count: nat

    ghost predicate Valid()
      reads this`count
    {
      count < LIMIT
    }

    constructor ()
      ensures Valid() && count == 0
    {
      count := 0;
    }

    /**
     * `on_message_tick` with `draw` the value `randint` returns: a request is
     * published only on the tick that finds the counter at 0, echoing the tick.
     */
    method OnMessageTick(tick: string, draw: int) returns (request: Option<HydrogenRequest>)
      requires Valid() && LOW <= draw <= HIGH
      modifies this`count
      ensures Valid()
      ensures count == ModCounter.Next(old(count), LIMIT)
      ensures request.Some? <==> old(count) == 0
      ensures request.Some? ==> request.value == HydrogenRequest(draw, tick) && 344 <= request.value.hydrogen <= 537
    {
      DrawBounds();
      request := None;
      if count == 0 {
        request := Some(HydrogenRequest(draw, tick));
      }
      count := (count + 1) % LIMIT;
    }
  }
}
