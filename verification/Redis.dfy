/** The part of Redis the stores rely on: a table of values that disappear on their deadlines. */
module Redis {
  import opened Wrappers

  /** A keyed value that is gone once the clock reaches its deadline. */
  datatype Timed<T> = Timed(value: T, deadline: nat)

  /** `GET`. */
  function Get<T>(table: map<string, Timed<T>>, key: string, now: nat): Option<T> {
    if key in table && now < table[key].deadline then Some(table[key].value) else None
  }
}
