/** Chart entries, as the recorder writes them and both players read them. */
module Chart {

  datatype Option<T> = None | Some(value: T)

  /** A lane is named by its key: "A", "S", "D", "F" in the editor, "a" .. "f" in the player. */
  type Lane = string

  /** One chart entry; all times are milliseconds since the session started. */
  datatype ChartEntry =
    | Tap(time: int, lane: Lane)
    | Hold(startTime: int, endTime: int, lane: Lane)

  /** The scheduler's `entry.time || entry.startTime`. A tap at time 0 makes the
      `||` fall through to the absent `startTime`, so its effective time is
      undefined (None), and comparing against it is always false. */
  function EffectiveTime(d: ChartEntry): Option<int>
  {
    match d
    case Tap(t, _) => if t != 0 then Some(t) else None
    case Hold(s, _, _) => Some(s)
  }

  function Abs(x: int): nat
  {
    if x < 0 then -x else x
  }
}
