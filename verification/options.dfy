/** An optional value: the model's stand-in for JavaScript's `null` / `NaN` results. */
module Options {

  datatype Option<+T> = None | Some(value: T)

  /** The values an option holds, as a sequence of zero or one elements. */
  function ToSeq<T>(o: Option<T>): (r: seq<T>)
    ensures |r| <= 1
    ensures o.None? ==> r == []
    ensures o.Some? ==> r == [o.value]
  {
    match o
    case None => []
    case Some(v) => [v]
  }
}
