/** `contracts/motor.py`: interleaved motor states and commands; a command's length alone says which tail it carries. */
module Motor {
  import opened Wrappers

  const STATE_FIELDS := 8
  const COMMAND_FIELDS := 5
  const CARTESIAN_SIZE := 21
  const POSE_HOLD_SIZE := 15

  datatype Error = WrongWidth | WrongLength | BadTail | TwoTails

  // ---- interleaving ---------------------------------------------------------------------------

  predicate SameWidth(columns: seq<seq<real>>, n: nat) {
    forall k :: 0 <= k < |columns| ==> |columns[k]| == n
  }

  lemma Place(i: nat, k: nat, m: nat)
    requires k < m
    ensures (i * m + k) / m == i && (i * m + k) % m == k
  {
    var x := i * m + k;
    assert x == (x / m) * m + x % m;
    if x / m < i {
      LessProduct(x / m + 1, i, m);
    } else if x / m > i {
      LessProduct(i + 1, x / m, m);
    }
  }

  lemma LessProduct(a: nat, b: nat, m: nat)
    requires a <= b
    ensures a * m <= b * m
  {
  }

  lemma InRange(i: nat, k: nat, n: nat, m: nat)
    requires k < m && i < n
    ensures i * m + k < n * m
  {
    LessProduct(i + 1, n, m);
  }

  lemma Places(x: nat, n: nat, m: nat)
    requires x < n * m
    ensures m > 0 && x / m < n && x % m < m && x == (x / m) * m + x % m
  {
    if m > 0 && x / m >= n {
      LessProduct(n, x / m, m);
    }
  }

  /** Motor by motor, one value of each column. */
  function Interleaved(columns: seq<seq<real>>, n: nat): seq<real>
    requires SameWidth(columns, n)
  {
    var m := |columns|;
    seq(n * m, x requires 0 <= x < n * m => Places(x, n, m); columns[x % m][x / m])
  }

  function Column(flat: seq<real>, n: nat, m: nat, k: nat): seq<real>
    requires n * m <= |flat| && k < m
  {
    seq(n, i requires 0 <= i < n => InRange(i, k, n, m); flat[i * m + k])
  }

  /** Reading a column of what was interleaved gives that column. */
  lemma ColumnOfInterleaved(columns: seq<seq<real>>, n: nat, k: nat, tail: seq<real>)
    requires SameWidth(columns, n) && k < |columns|
    ensures Column(Interleaved(columns, n) + tail, n, |columns|, k) == columns[k]
  {
    var m, flat := |columns|, Interleaved(columns, n);
    forall i | 0 <= i < n ensures Column(flat + tail, n, m, k)[i] == columns[k][i] {
      InRange(i, k, n, m);
      Place(i, k, m);
    }
  }

  /** And interleaving the columns of a block gives the block. */
  lemma InterleavedColumns(flat: seq<real>, n: nat, columns: seq<seq<real>>)
    requires |columns| > 0 && n * |columns| <= |flat|
    requires forall k :: 0 <= k < |columns| ==> columns[k] == Column(flat, n, |columns|, k)
    ensures SameWidth(columns, n) && Interleaved(columns, n) == flat[..n * |columns|]
  {
    var m := |columns|;
    forall x | 0 <= x < n * m ensures Interleaved(columns, n)[x] == flat[x] {
      Places(x, n, m);
    }
  }

  /** The strided assignment `buf[k::m] = values`. */
  method WriteColumn(buf: array<real>, n: nat, m: nat, k: nat, values: seq<real>)
    requires buf.Length == n * m && k < m && |values| == n
    modifies buf
    ensures forall x :: 0 <= x < n * m ==> buf[x] == if x % m == k then At(values, x / m) else old(buf[x])
  {
    for i := 0 to n
      invariant forall x :: 0 <= x < n * m ==>
        buf[x] == if x % m == k && x / m < i then At(values, x / m) else old(buf[x])
    {
      InRange(i, k, n, m);
      Place(i, k, m);
      buf[i * m + k] := values[i];
      forall x | 0 <= x < n * m && x != i * m + k ensures x % m != k || x / m != i {
        Places(x, n, m);
      }
    }
    forall x | 0 <= x < n * m ensures x / m < n {
      Places(x, n, m);
    }
  }

  function At(values: seq<real>, i: int): real {
    if 0 <= i < |values| then values[i] else 0.0
  }

  /** One strided assignment after another. */
  method Interleave(columns: seq<seq<real>>, n: nat) returns (buf: array<real>)
    requires SameWidth(columns, n) && |columns| > 0
    ensures fresh(buf) && buf[..] == Interleaved(columns, n)
  {
    hide Interleaved;
    var m := |columns|;
    LessProduct(0, n, m);
    buf := new real[n * m](_ => 0.0);
    for k := 0 to m
      invariant buf.Length == n * m && fresh(buf)
      invariant forall x :: 0 <= x < n * m && x % m < k ==> buf[x] == At(columns[x % m], x / m)
    {
      WriteColumn(buf, n, m, k, columns[k]);
    }
    InterleavedAt(columns, n, buf[..]);
  }

  lemma InterleavedAt(columns: seq<seq<real>>, n: nat, flat: seq<real>)
    requires SameWidth(columns, n) && |columns| > 0 && |flat| == n * |columns|
    requires forall x :: 0 <= x < |flat| ==> flat[x] == At(columns[x % |columns|], x / |columns|)
    ensures flat == Interleaved(columns, n)
  {
    forall x | 0 <= x < |flat| ensures flat[x] == Interleaved(columns, n)[x] {
      ValueAt(columns, n, x);
    }
    hide At, SameWidth;
  }

  lemma ValueAt(columns: seq<seq<real>>, n: nat, x: nat)
    requires SameWidth(columns, n) && x < n * |columns|
    ensures |columns| > 0 && Interleaved(columns, n)[x] == At(columns[x % |columns|], x / |columns|)
  {
    Places(x, n, |columns|);
  }

  // ---- pose holds -----------------------------------------------------------------------------

  datatype PoseHold = PoseHold(id: real, kc: seq<real>, dc: seq<real>, nullKp: real, nullKd: real)

  const CAPS: seq<real> :=
    [1000.0, 1000.0, 1000.0, 100.0, 100.0, 100.0, 200.0, 200.0, 200.0, 50.0, 50.0, 50.0, 20.0, 10.0]

  function HoldValues(h: PoseHold): Option<seq<real>> {
    var gains := h.kc + h.dc + [h.nullKp, h.nullKd];
    if !(0.0 < h.id < 4294967296.0) || h.id != h.id.Floor as real || |h.kc| != 6 || |h.dc| != 6 then None
    else if exists i :: 0 <= i < 14 && !(0.0 <= gains[i] <= CAPS[i]) then None
    else Some([h.id] + gains)
  }

  function HoldOf(values: seq<real>): Option<PoseHold> {
    if |values| != POSE_HOLD_SIZE then None
    else
      var h := PoseHold(values[0], values[1..7], values[7..13], values[13], values[14]);
      if HoldValues(h).Some? then Some(h) else None
  }

  /** A pose hold that packs comes back as it was, and only such a block is read. */
  lemma HoldRoundTrip(h: PoseHold, values: seq<real>)
    ensures HoldValues(h) == Some(values) <==> HoldOf(values) == Some(h)
  {
    if HoldValues(h) == Some(values) {
      assert values[1..7] == h.kc && values[7..13] == h.dc;
    }
    if HoldOf(values) == Some(h) {
      assert values == [h.id] + (h.kc + h.dc + [h.nullKp, h.nullKd]);
    }
  }

  // ---- commands -------------------------------------------------------------------------------

  datatype Tail = NoTail | Cartesian(values: seq<real>) | Soft(hold: PoseHold)

  datatype Command = Command(pos: seq<real>, vel: seq<real>, tor: seq<real>, kp: seq<real>, kd: seq<real>, tail: Tail)

  function Columns(c: Command): (columns: seq<seq<real>>)
    ensures |columns| == COMMAND_FIELDS
  {
    [c.pos, c.vel, c.tor, c.kp, c.kd]
  }

  function TailValues(t: Tail): Option<seq<real>> {
    match t
    case NoTail => Some([])
    case Cartesian(values) => if |values| == CARTESIAN_SIZE then Some(values) else None
    case Soft(hold) => HoldValues(hold)
  }

  function Packed(c: Command): Result<seq<real>, Error> {
    if !SameWidth(Columns(c), |c.pos|) then Err(WrongWidth)
    else if TailValues(c.tail).None? then Err(BadTail)
    else Ok(Interleaved(Columns(c), |c.pos|) + TailValues(c.tail).value)
  }

  function TailOf(values: seq<real>): Option<Tail> {
    if |values| == 0 then Some(NoTail)
    else if |values| == CARTESIAN_SIZE then Some(Cartesian(values))
    else if HoldOf(values).Some? then Some(Soft(HoldOf(values).value))
    else None
  }

  function Unpacked(flat: seq<real>, n: nat): Result<Command, Error> {
    var size := n * COMMAND_FIELDS;
    if |flat| != size && |flat| != size + CARTESIAN_SIZE && |flat| != size + POSE_HOLD_SIZE then Err(WrongLength)
    else
      var tail := TailOf(flat[size..]);
      if tail.None? then Err(BadTail)
      else Ok(Command(Column(flat, n, 5, 0), Column(flat, n, 5, 1), Column(flat, n, 5, 2), Column(flat, n, 5, 3),
                      Column(flat, n, 5, 4), tail.value))
  }

  lemma TailRoundTrip(t: Tail, values: seq<real>)
    ensures TailValues(t) == Some(values) <==> TailOf(values) == Some(t)
  {
    hide HoldValues, HoldOf;
    HoldSizes(values);
    if t.Soft? {
      HoldRoundTrip(t.hold, values);
      SizeOfHold(t.hold);
    }
    if HoldOf(values).Some? {
      HoldRoundTrip(HoldOf(values).value, values);
    }
  }

  lemma SizeOfHold(h: PoseHold)
    ensures HoldValues(h).Some? ==> |HoldValues(h).value| == POSE_HOLD_SIZE
  {
  }

  lemma HoldSizes(values: seq<real>)
    ensures HoldOf(values).Some? ==> |values| == POSE_HOLD_SIZE
  {
  }

  /** Packing and unpacking are inverse to each other, for any number of motors and any tail: what packs is exactly what
      unpacks, and with the motor count the length tells the tails apart. */
  lemma CommandRoundTrip(c: Command, flat: seq<real>)
    ensures Packed(c) == Ok(flat) <==> Unpacked(flat, |c.pos|) == Ok(c)
  {
    hide TailValues, TailOf;
    var n, columns := |c.pos|, Columns(c);
    if Packed(c) == Ok(flat) {
      var tail := TailValues(c.tail).value;
      assert flat[n * 5..] == tail;
      TailRoundTrip(c.tail, tail);
      TailSizes(c.tail);
      ColumnOfInterleaved(columns, n, 0, tail);
      ColumnOfInterleaved(columns, n, 1, tail);
      ColumnOfInterleaved(columns, n, 2, tail);
      ColumnOfInterleaved(columns, n, 3, tail);
      ColumnOfInterleaved(columns, n, 4, tail);
    }
    if Unpacked(flat, n) == Ok(c) {
      TailRoundTrip(c.tail, flat[n * 5..]);
      InterleavedColumns(flat, n, columns);
      assert flat == flat[..n * 5] + flat[n * 5..];
    }
  }

  lemma TailSizes(t: Tail)
    ensures TailValues(t).Some? ==> |TailValues(t).value| in {0, CARTESIAN_SIZE, POSE_HOLD_SIZE}
  {
  }

  /** A column assigned to `n` places: its own values or, from a single one, that value at each. */
  function Spread(column: seq<real>, n: nat): (wide: Option<seq<real>>)
    ensures wide.Some? <==> |column| == n || |column| == 1
    ensures wide.Some? ==>
      |wide.value| == n && forall i :: 0 <= i < n ==> wide.value[i] == if |column| == 1 then column[0] else column[i]
  {
    if |column| == n then Some(column) else if |column| == 1 then Some(seq(n, _ => column[0])) else None
  }

  /** The command that packing these arguments means, or what is wrong with them. */
  function Intended(pos: seq<real>, vel: seq<real>, tor: seq<real>, kp: seq<real>, kd: seq<real>,
                    cartesian: Option<seq<real>>, poseHold: Option<PoseHold>): Result<Command, Error> {
    var n := |pos|;
    if Spread(vel, n).None? || Spread(tor, n).None? || Spread(kp, n).None? || Spread(kd, n).None? then Err(WrongWidth)
    else if cartesian.Some? && poseHold.Some? then Err(TwoTails)
    else
      Ok(Command(pos, Spread(vel, n).value, Spread(tor, n).value, Spread(kp, n).value, Spread(kd, n).value,
                 if poseHold.Some? then Soft(poseHold.value)
                 else if cartesian.Some? then Cartesian(cartesian.value) else NoTail))
  }

  method PackMotorCommand(pos: seq<real>, vel: seq<real>, tor: seq<real>, kp: seq<real>, kd: seq<real>,
                          cartesian: Option<seq<real>>, poseHold: Option<PoseHold>)
    returns (r: Result<seq<real>, Error>)
    ensures var c := Intended(pos, vel, tor, kp, kd, cartesian, poseHold);
            r == if c.Err? then Err(c.error) else Packed(c.value)
    ensures r.Ok? ==> Unpacked(r.value, |pos|) == Intended(pos, vel, tor, kp, kd, cartesian, poseHold)
  {
    var n := |pos|;
    var v, t, p, d := Spread(vel, n), Spread(tor, n), Spread(kp, n), Spread(kd, n);
    if v.None? || t.None? || p.None? || d.None? {
      return Err(WrongWidth);
    }
    var columns := [pos, v.value, t.value, p.value, d.value];
    var buf := Interleave(columns, n);
    if poseHold.Some? {
      if cartesian.Some? {
        return Err(TwoTails);
      }
      var values := HoldValues(poseHold.value);
      r := if values.None? then Err(BadTail) else Ok(buf[..] + values.value);
    } else if cartesian.None? {
      assert buf[..] + [] == buf[..];
      r := Ok(buf[..]);
    } else {
      r := if |cartesian.value| != CARTESIAN_SIZE then Err(BadTail) else Ok(buf[..] + cartesian.value);
    }
    ghost var c := Intended(pos, vel, tor, kp, kd, cartesian, poseHold).value;
    assert Columns(c) == columns;
    if r.Ok? {
      CommandRoundTrip(c, r.value);
    }
  }

  // ---- states ---------------------------------------------------------------------------------

  function UnpackedState(flat: seq<real>, n: nat): Result<seq<seq<real>>, Error> {
    if |flat| != n * STATE_FIELDS then Err(WrongLength)
    else Ok(seq(STATE_FIELDS, k requires 0 <= k < STATE_FIELDS => Column(flat, n, STATE_FIELDS, k)))
  }

  /** A state's eight fields come back as they were packed, and a block of the right length always packs back. */
  lemma StateRoundTrip(columns: seq<seq<real>>, flat: seq<real>, n: nat)
    requires |columns| == STATE_FIELDS
    ensures SameWidth(columns, n) && Interleaved(columns, n) == flat <==> UnpackedState(flat, n) == Ok(columns)
  {
    if SameWidth(columns, n) && Interleaved(columns, n) == flat {
      forall k | 0 <= k < STATE_FIELDS ensures Column(flat, n, STATE_FIELDS, k) == columns[k] {
        ColumnOfInterleaved(columns, n, k, []);
        assert flat + [] == flat;
      }
      assert UnpackedState(flat, n).value == columns;
    }
    if UnpackedState(flat, n) == Ok(columns) {
      InterleavedColumns(flat, n, columns);
      assert flat[..n * STATE_FIELDS] == flat;
    }
  }
}
