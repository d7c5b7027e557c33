/** Keeping the guest clock close to the host clock: one query, one estimate of how far the host is
    ahead, and at most one correction.
 */
module ClockSync {
  import opened Wrappers

  const I64_MIN := -0x8000_0000_0000_0000
  const I64_MAX := 0x7fff_ffff_ffff_ffff
  const U64 := 0x1_0000_0000_0000_0000

  /** 10 ms, in nanoseconds. */
  const TOLERANCE := 10_000_000

  predicate Fits(x: int) { I64_MIN <= x <= I64_MAX }

  function Checked(x: int): Option<int> {
    if Fits(x) then Some(x) else None
  }

  function Abs(x: int): int { if x < 0 then -x else x }

  /** Division by two towards zero. */
  function Half(x: int): int {
    if x >= 0 then x / 2 else -((-x) / 2)
  }

  /** `checked_compute_delta`. A result always has an absolute value that fits. */
  function CheckedComputeDelta(cSend: int, cArrive: int, sSend: int, sArrive: int): (r: Option<int>)
    ensures r.Some? <==> Fits(cSend - cArrive) && Fits(sArrive - sSend) && Fits(cSend - cArrive + sArrive - sSend)
    ensures r.Some? ==> Fits(Abs(r.value))
  {
    match (Checked(cSend - cArrive), Checked(sArrive - sSend))
    case (Some(client), Some(server)) =>
      (match Checked(client + server)
       case None => None
       case Some(sum) => Checked(Half(sum)))
    case _ => None
  }

  datatype Packet = Packet(clientSend: int, clientArrive: int, serverSend: int, serverArrive: int, delta: int)

  /** A 64-bit number read as unsigned. */
  function AsUnsigned(n: int): (u: nat)
    ensures u < U64 && (u - n) % U64 == 0
  {
    n % U64
  }

  /** What an unsigned number of nanoseconds adds to a clock kept in signed 64-bit nanoseconds. */
  function Added(u: nat): int {
    if u <= I64_MAX then u else u - U64
  }

  /** The guest's `sync_clock`: a zero delta asks for the time, any other delta is added to the clock as
      an unsigned duration. The result is the reply, the duration and what it adds. */
  function GuestSync(p: Packet, arrive: int, send: int): (Packet, nat, int) {
    if p.delta == 0 then (p.(clientArrive := arrive, serverSend := send), 0, 0)
    else (p, AsUnsigned(p.delta), Added(AsUnsigned(p.delta)))
  }

  /** One exchange seen from outside: the host sends at `t` by its own clock, the guest's clock is
      ahead of the host's by `ahead`, the request takes `d1`, the guest `busy`, the reply `d2`. */
  datatype Exchange = Exchange(t: int, ahead: int, d1: nat, busy: nat, d2: nat)

  /** When the arithmetic of the exchange stays within 64 bits. */
  predicate InRange(x: Exchange) {
    Fits(0 - x.d1 - x.ahead) && Fits(x.d2 - x.ahead) && Fits(x.d2 - x.d1 - 2 * x.ahead)
  }

  /** `do_once_sync_clock`. `moved` is what the guest added to its clock; `asked` counts the packets
      the guest took for a query. */
  method DoOnceSyncClock(x: Exchange) returns (estimate: Option<int>, moved: int, asked: nat)
    ensures estimate.Some? <==> InRange(x)
    ensures estimate.Some? ==> Abs(2 * estimate.value + 2 * x.ahead) <= Abs(x.d2 - x.d1) + 1
    ensures moved == if estimate.Some? && Abs(estimate.value) > TOLERANCE then estimate.value else 0
    ensures asked == 1
    ensures estimate.Some? ==> Abs(2 * (x.ahead + moved)) <= 2 * TOLERANCE + Abs(x.d2 - x.d1) + 1
  {
    var p, _ := Ask(Packet(x.t, 0, 0, 0, 0), x);
    asked, moved := 1, 0;
    p := p.(serverArrive := x.t + x.d1 + x.busy + x.d2);
    estimate := CheckedComputeDelta(p.clientSend, p.clientArrive, p.serverSend, p.serverArrive);
    if estimate.None? { return; }
    p := p.(delta := estimate.value);
    if Abs(p.delta) > TOLERANCE {
      var _, m, isQuery := Correct(p);
      moved := m;
      asked := asked + if isQuery then 1 else 0;
    }
  }

  /** The first packet of an exchange, handled by the guest by its own clock. */
  method Ask(req: Packet, x: Exchange) returns (p: Packet, moved: int)
    requires req.delta == 0
    ensures moved == 0
    ensures p == req.(clientArrive := x.t + x.d1 + x.ahead, serverSend := x.t + x.d1 + x.busy + x.ahead)
  {
    var r := GuestSync(req, x.t + x.d1 + x.ahead, x.t + x.d1 + x.busy + x.ahead);
    p, moved := r.0, r.2;
  }

  /** The second packet: the guest passes an unsigned duration on, and its clock moves by the delta,
      forwards or backwards. */
  method Correct(p: Packet) returns (duration: nat, moved: int, isQuery: bool)
    requires Fits(p.delta)
    ensures duration < U64 && (p.delta >= 0 ==> duration == p.delta) && (p.delta < 0 ==> duration == p.delta + U64)
    ensures moved == p.delta
    ensures isQuery <==> p.delta == 0
  {
    var r := GuestSync(p, 0, 0);
    duration, moved, isQuery := r.1, r.2, p.delta == 0;
  }
}
