/** What several of the components share. */
module Common {

  datatype Option<+T> = None | Some(value: T)

  /** What a wait that doubles n times has grown to, from one second. */
  function Pow2(n: nat): real {
    if n == 0 then 1.0 else 2.0 * Pow2(n - 1)
  }
}
