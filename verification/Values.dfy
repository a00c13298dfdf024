/** What several modules need. */
module Values {

  datatype Option<+T> = None | Some(value: T)

  function Max(a: nat, b: nat): (m: nat)
    ensures m in {a, b} && a <= m && b <= m
  {
    if a < b then b else a
  }
}
