/** Values shared by the models of the scheduler's components. */
module Types {

  datatype Option<+T> = None | Some(value: T)

  datatype Result<+T> = Ok(value: T) | Err

  /** Instants and durations are nanoseconds on one monotone clock. */
  type Time = int

  const SECOND: int := 1_000_000_000
  const HOUR: int := 3600 * SECOND
  const DAY: int := 24 * HOUR

  ghost predicate Ascending(times: seq<Time>) { forall i, j | 0 <= i < j < |times| :: times[i] < times[j] }

  /** The UTC second an instant falls in; the resolution of occurrence identity. */
  function Second(t: Time): int { t / SECOND }

  /** Two instants fall in one UTC second exactly when one whole second, counted from the epoch, holds both. */
  lemma SameSecondIff(a: Time, b: Time)
    ensures Second(a) == Second(b) <==>
              exists n ::
                n * 1_000_000_000 <= a < (n + 1) * 1_000_000_000 && n * 1_000_000_000 <= b < (n + 1) * 1_000_000_000
  {
    var n := Second(a);
    assert n * 1_000_000_000 <= a < (n + 1) * 1_000_000_000;
    if m :| m * 1_000_000_000 <= a < (m + 1) * 1_000_000_000 && m * 1_000_000_000 <= b < (m + 1) * 1_000_000_000 {
      assert Second(a) == m && Second(b) == m;
    }
  }
}
