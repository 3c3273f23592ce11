// The response of two touching bodies, in exact arithmetic: position correction, normal impulse and
// clamped friction impulse.

module Physics {

  datatype Vec = Vec(x: real, y: real, z: real)

  function Add(a: Vec, b: Vec): Vec { Vec(a.x + b.x, a.y + b.y, a.z + b.z) }

  function Subtract(a: Vec, b: Vec): Vec { Vec(a.x - b.x, a.y - b.y, a.z - b.z) }

  function Scale(a: Vec, k: real): Vec { Vec(a.x * k, a.y * k, a.z * k) }

  function Dot(a: Vec, b: Vec): real { a.x * b.x + a.y * b.y + a.z * b.z }

  function AddScaled(a: Vec, d: Vec, k: real): Vec { Vec(a.x + d.x * k, a.y + d.y * k, a.z + d.z * k) }

  function Clamp(x: real, low: real, high: real): (r: real)
    requires low <= high
    ensures low <= r <= high && (low <= x <= high ==> r == x)
  {
    if x < low then low else if x > high then high else x
  }

  function Max(a: real, b: real): real { if a < b then b else a }

  function Min(a: real, b: real): real { if b < a then b else a }

  function Abs(a: real): real { if a < 0.0 then -a else a }

  // ---------- vector algebra ----------

  lemma DotAddScaled(a: Vec, d: Vec, k: real, b: Vec)
    ensures Dot(AddScaled(a, d, k), b) == Dot(a, b) + k * Dot(d, b)
  {
  }

  lemma DotSymmetric(a: Vec, b: Vec)
    ensures Dot(a, b) == Dot(b, a)
  {
  }

  lemma DotSubtract(a: Vec, b: Vec, c: Vec)
    ensures Dot(Subtract(a, b), c) == Dot(a, c) - Dot(b, c)
  {
  }

  lemma DotScale(a: Vec, k: real, b: Vec)
    ensures Dot(Scale(a, k), b) == k * Dot(a, b)
  {
  }

  lemma SquareAddScaled(a: Vec, d: Vec, k: real)
    ensures Dot(AddScaled(a, d, k), AddScaled(a, d, k)) == Dot(a, a) + 2.0 * (k * Dot(a, d)) + k * k * Dot(d, d)
  {
    var b := AddScaled(a, d, k);
    DotAddScaled(a, d, k, b);
    DotSymmetric(a, b);
    DotSymmetric(d, b);
    DotAddScaled(a, d, k, a);
    DotAddScaled(a, d, k, d);
    DotSymmetric(a, d);
  }

  // ---------- impulses on a pair ----------

  datatype Pair = Pair(a: Vec, b: Vec)

  function Relative(p: Pair): Vec { Subtract(p.b, p.a) }

  // An impulse k along d, opposite on the two bodies, by inverse masses.
  function Push(p: Pair, d: Vec, wa: real, wb: real, k: real): Pair {
    Pair(AddScaled(p.a, d, -k * wa), AddScaled(p.b, d, k * wb))
  }

  function Energy(m: real, v: Vec): real { 0.5 * m * Dot(v, v) }

  function Kinetic(ma: real, mb: real, p: Pair): real { Energy(ma, p.a) + Energy(mb, p.b) }

  function Momentum(ma: real, mb: real, p: Pair): Vec { Add(Scale(p.a, ma), Scale(p.b, mb)) }

  // A body with mass m and inverse mass w, or one that is fixed and at rest and has neither.
  predicate Side(m: real, w: real, v: Vec) {
    w >= 0.0 && (m * w == 1.0 || (m == 0.0 && w == 0.0 && v == Vec(0.0, 0.0, 0.0)))
  }

  lemma PushRelative(p: Pair, d: Vec, wa: real, wb: real, k: real, c: Vec)
    ensures Dot(Relative(Push(p, d, wa, wb, k)), c) == Dot(Relative(p), c) + (k * (wa + wb)) * Dot(d, c)
  {
    var q := Push(p, d, wa, wb, k);
    DotSubtract(q.b, q.a, c);
    DotSubtract(p.b, p.a, c);
    DotAddScaled(p.a, d, -k * wa, c);
    DotAddScaled(p.b, d, k * wb, c);
    Distribute(k, wa, wb, Dot(d, c));
  }

  lemma Distribute(k: real, wa: real, wb: real, x: real)
    ensures (k * wb) * x - (-k * wa) * x == (k * (wa + wb)) * x
  {
  }

  lemma {:induction false} PushMomentum(ma: real, mb: real, p: Pair, d: Vec, wa: real, wb: real, k: real)
    requires ma * wa == 1.0 && mb * wb == 1.0
    ensures Momentum(ma, mb, Push(p, d, wa, wb, k)) == Momentum(ma, mb, p)
  {
    Opposite(ma, mb, p.a.x, p.b.x, d.x, wa, wb, k);
    Opposite(ma, mb, p.a.y, p.b.y, d.y, wa, wb, k);
    Opposite(ma, mb, p.a.z, p.b.z, d.z, wa, wb, k);
  }

  lemma Opposite(ma: real, mb: real, a: real, b: real, d: real, wa: real, wb: real, k: real)
    requires ma * wa == 1.0 && mb * wb == 1.0
    ensures (a + d * (-k * wa)) * ma + (b + d * (k * wb)) * mb == a * ma + b * mb
  {
    assert (d * (-k * wa)) * ma == -(d * k) * (ma * wa);
    assert (d * (k * wb)) * mb == (d * k) * (mb * wb);
  }

  lemma ScalarEnergy(m: real, w: real, x: real, y: real, k: real)
    requires m * w == 1.0
    ensures 0.5 * m * (x + 2.0 * ((k * w) * y) + (k * w) * (k * w)) == 0.5 * m * x + k * y + 0.5 * (k * k * w)
  {
    assert m * ((k * w) * y) == (m * w) * (k * y);
    assert m * ((k * w) * (k * w)) == (m * w) * (k * k * w);
  }

  // The work of an impulse k against a relative speed u, for bodies of total inverse mass w.
  function Work(k: real, u: real, w: real): real { k * u + 0.5 * (k * k * w) }

  // The work an impulse does on one body.
  lemma SideEnergy(m: real, w: real, v: Vec, d: Vec, k: real)
    requires Side(m, w, v) && Dot(d, d) == 1.0
    ensures Energy(m, AddScaled(v, d, k * w)) == Energy(m, v) + Work(k, Dot(v, d), w)
  {
    if m * w == 1.0 {
      SquareAddScaled(v, d, k * w);
      ScalarEnergy(m, w, Dot(v, v), Dot(v, d), k);
    }
  }

  // The energy an impulse changes depends on the relative velocity along it only.
  lemma PushEnergy(ma: real, mb: real, p: Pair, d: Vec, wa: real, wb: real, k: real)
    requires Side(ma, wa, p.a) && Side(mb, wb, p.b) && Dot(d, d) == 1.0
    ensures Kinetic(ma, mb, Push(p, d, wa, wb, k)) ==
      Kinetic(ma, mb, p) + Work(k, Dot(Relative(p), d), wa + wb)
  {
    var a, b := AddScaled(p.a, d, -k * wa), AddScaled(p.b, d, k * wb);
    SideEnergy(ma, wa, p.a, d, -k);
    SideEnergy(mb, wb, p.b, d, k);
    DotSubtract(p.b, p.a, d);
    Collect(k, wa, wb, Dot(p.a, d), Dot(p.b, d), Dot(Relative(p), d),
            Energy(ma, p.a), Energy(ma, a), Energy(mb, p.b), Energy(mb, b));
  }

  lemma Collect(
    k: real, wa: real, wb: real, x: real, y: real, u: real, a0: real, a1: real, b0: real, b1: real)
    requires u == y - x && a1 == a0 + Work(-k, x, wa) && b1 == b0 + Work(k, y, wb)
    ensures a1 + b1 == a0 + b0 + Work(k, u, wa + wb)
  {
  }

  lemma PushLoses(ma: real, mb: real, p: Pair, d: Vec, wa: real, wb: real, k: real)
    requires Side(ma, wa, p.a) && Side(mb, wb, p.b) && Dot(d, d) == 1.0
    requires Work(k, Dot(Relative(p), d), wa + wb) <= 0.0
    ensures Kinetic(ma, mb, Push(p, d, wa, wb, k)) <= Kinetic(ma, mb, p)
  {
    PushEnergy(ma, mb, p, d, wa, wb, k);
  }

  // A fixed body at rest stays so.
  lemma PushSides(ma: real, mb: real, p: Pair, d: Vec, wa: real, wb: real, k: real)
    requires Side(ma, wa, p.a) && Side(mb, wb, p.b)
    ensures var q := Push(p, d, wa, wb, k); Side(ma, wa, q.a) && Side(mb, wb, q.b)
  {
  }

  // ---------- the contact response ----------

  const EPSILON: real := 0.000000001

  // What the solver knows of two touching bodies; n is the unit contact normal from a to b.
  datatype Contact = Contact(n: Vec, wa: real, wb: real, restitution: real, friction: real)

  predicate Touching(c: Contact) {
    Dot(c.n, c.n) == 1.0 && c.wa >= 0.0 && c.wb >= 0.0 && c.wa + c.wb > 0.0 && 0.0 <= c.restitution <= 1.0 && c.friction >= 0.0
  }

  function Approach(c: Contact, p: Pair): real { Dot(Relative(p), c.n) }

  function NormalImpulse(c: Contact, p: Pair): real
    requires Touching(c)
  {
    if Approach(c, p) < 0.0 then -(1.0 + c.restitution) * Approach(c, p) / (c.wa + c.wb) else 0.0
  }

  function Tangential(c: Contact, p: Pair): Vec {
    Subtract(Relative(p), Scale(c.n, Dot(Relative(p), c.n)))
  }

  // The impulse that would stop a sliding speed, within a limit.
  function Brake(speed: real, w: real, limit: real): real
    requires w > 0.0 && limit >= 0.0
  {
    Clamp(-speed / w, -limit, limit)
  }

  function FrictionImpulse(c: Contact, p: Pair, t: Vec, limit: real): real
    requires Touching(c) && limit >= 0.0
  {
    Brake(Dot(Relative(p), t), c.wa + c.wb, limit)
  }

  // Friction within a limit; the root gives the length of the sliding velocity.
  function WithFriction(c: Contact, p: Pair, limit: real, sqrt: real -> real): Pair
    requires Touching(c) && limit >= 0.0
  {
    var raw := Tangential(c, p);
    var length := sqrt(Dot(raw, raw));
    if length > EPSILON then
      var t := Scale(raw, 1.0 / length);
      Push(p, t, c.wa, c.wb, FrictionImpulse(c, p, t, limit))
    else p
  }

  // What friction may come to after a normal impulse.
  function Limit(c: Contact, j: real): (r: real)
    requires Touching(c)
    ensures r >= 0.0
  {
    Product(Abs(j), c.friction);
    Abs(j) * c.friction
  }

  function Response(c: Contact, p: Pair, sqrt: real -> real): Pair
    requires Touching(c)
  {
    if Approach(c, p) < 0.0 then
      var j := NormalImpulse(c, p);
      WithFriction(c, Push(p, c.n, c.wa, c.wb, j), Limit(c, j), sqrt)
    else p
  }

  ghost predicate SquareRoots(sqrt: real -> real) {
    forall x :: x >= 0.0 ==> sqrt(x) >= 0.0 && sqrt(x) * sqrt(x) == x
  }

  // ---------- what the normal impulse does ----------

  lemma NormalScalars(e: real, u: real, w: real)
    requires u < 0.0 && w > 0.0 && 0.0 <= e <= 1.0
    ensures var j := -(1.0 + e) * u / w;
      j >= 0.0 && j * w == -(1.0 + e) * u && j * u + 0.5 * (j * j * w) <= 0.0
  {
    var j := -(1.0 + e) * u / w;
    assert j * w == -(1.0 + e) * u;
    NotNegative(-(1.0 + e) * u, w);
    assert j * j * w == j * (j * w);
    assert j * u + 0.5 * (j * (-(1.0 + e) * u)) == (j * (1.0 - e)) * u * 0.5;
    Product(j, 1.0 - e);
    NegativeProduct(j * (1.0 - e), u);
  }

  lemma NotNegative(x: real, w: real)
    requires x >= 0.0 && w > 0.0
    ensures x / w >= 0.0
  {
  }

  lemma Product(x: real, y: real)
    requires x >= 0.0 && y >= 0.0
    ensures x * y >= 0.0
  {
  }

  lemma NegativeProduct(x: real, y: real)
    requires x >= 0.0 && y <= 0.0
    ensures x * y <= 0.0
  {
  }

  // The bodies part with the approach speed times the restitution.
  lemma Restitution(c: Contact, p: Pair)
    requires Touching(c) && Approach(c, p) < 0.0
    ensures Approach(c, Push(p, c.n, c.wa, c.wb, NormalImpulse(c, p))) == -c.restitution * Approach(c, p)
  {
    var j := NormalImpulse(c, p);
    NormalScalars(c.restitution, Approach(c, p), c.wa + c.wb);
    PushRelative(p, c.n, c.wa, c.wb, j, c.n);
  }

  lemma NormalWork(c: Contact, p: Pair)
    requires Touching(c) && Approach(c, p) < 0.0
    ensures NormalImpulse(c, p) >= 0.0 && Work(NormalImpulse(c, p), Dot(Relative(p), c.n), c.wa + c.wb) <= 0.0
  {
    NormalScalars(c.restitution, Approach(c, p), c.wa + c.wb);
  }

  lemma NormalLoses(c: Contact, p: Pair, ma: real, mb: real)
    requires Touching(c) && Approach(c, p) < 0.0 && Side(ma, c.wa, p.a) && Side(mb, c.wb, p.b)
    ensures Kinetic(ma, mb, Push(p, c.n, c.wa, c.wb, NormalImpulse(c, p))) <= Kinetic(ma, mb, p)
  {
    NormalWork(c, p);
    PushLoses(ma, mb, p, c.n, c.wa, c.wb, NormalImpulse(c, p));
  }

  // ---------- what friction does ----------

  // The direction of sliding is a unit vector across the normal.
  lemma TangentUnit(c: Contact, p: Pair, length: real)
    requires Dot(c.n, c.n) == 1.0 && length > 0.0 && length * length == Dot(Tangential(c, p), Tangential(c, p))
    ensures var t := Scale(Tangential(c, p), 1.0 / length);
      Dot(t, t) == 1.0 && Dot(t, c.n) == 0.0 && Dot(Relative(p), t) == length
  {
    var r, raw := Relative(p), Tangential(c, p);
    var t := Scale(raw, 1.0 / length);
    TangentialAcross(r, c.n);
    DotScale(raw, 1.0 / length, c.n);
    DotScale(raw, 1.0 / length, t);
    DotSymmetric(raw, t);
    DotScale(raw, 1.0 / length, raw);
    DotSymmetric(r, t);
    DotScale(raw, 1.0 / length, r);
    Unit(length);
  }

  lemma Unit(length: real)
    requires length > 0.0
    ensures (1.0 / length) * ((1.0 / length) * (length * length)) == 1.0 && (1.0 / length) * (length * length) == length
  {
    assert (1.0 / length) * length == 1.0;
  }

  lemma TangentialAcross(r: Vec, n: Vec)
    requires Dot(n, n) == 1.0
    ensures var raw := Subtract(r, Scale(n, Dot(r, n))); Dot(raw, n) == 0.0 && Dot(raw, r) == Dot(raw, raw)
  {
    var u := Dot(r, n);
    var raw := Subtract(r, Scale(n, u));
    DotSubtract(r, Scale(n, u), n);
    DotScale(n, u, n);
    DotSubtract(r, Scale(n, u), raw);
    DotScale(n, u, raw);
    DotSymmetric(n, raw);
    DotSymmetric(r, raw);
  }

  // Friction opposes sliding, within the limit and without reversing it.
  lemma FrictionScalars(speed: real, w: real, limit: real, f: real)
    requires speed > 0.0 && w > 0.0 && limit >= 0.0 && f == Brake(speed, w, limit)
    ensures f == -Min(speed / w, limit) && Work(f, speed, w) <= 0.0
  {
    var most := speed / w;
    assert most * w == speed && -speed / w == -most;
    NotNegative(speed, w);
    assert -most <= f <= 0.0;
    Product(-f, w);
    Product(most + f, w);
    assert (most + f) * w == speed + f * w;
    assert Work(f, speed, w) == (speed + 0.5 * (f * w)) * f;
    NegativeProduct(speed + 0.5 * (f * w), f);
  }

  lemma SquareNotNegative(v: Vec)
    ensures Dot(v, v) >= 0.0
  {
  }

  // Sliding fast enough to count.
  predicate Slides(c: Contact, p: Pair, sqrt: real -> real) {
    sqrt(Dot(Tangential(c, p), Tangential(c, p))) > EPSILON
  }

  function Tangent(c: Contact, p: Pair, sqrt: real -> real): Vec
    requires Slides(c, p, sqrt)
  {
    Scale(Tangential(c, p), 1.0 / sqrt(Dot(Tangential(c, p), Tangential(c, p))))
  }

  lemma TangentOf(c: Contact, p: Pair, sqrt: real -> real)
    requires Dot(c.n, c.n) == 1.0 && SquareRoots(sqrt) && Slides(c, p, sqrt)
    ensures var t := Tangent(c, p, sqrt);
      Dot(t, t) == 1.0 && Dot(t, c.n) == 0.0 && Dot(Relative(p), t) == sqrt(Dot(Tangential(c, p), Tangential(c, p)))
  {
    SquareNotNegative(Tangential(c, p));
    TangentUnit(c, p, sqrt(Dot(Tangential(c, p), Tangential(c, p))));
  }

  function FrictionOf(c: Contact, p: Pair, limit: real, sqrt: real -> real): real
    requires Touching(c) && Slides(c, p, sqrt) && limit >= 0.0
  {
    FrictionImpulse(c, p, Tangent(c, p, sqrt), limit)
  }

  lemma WithFrictionPushes(c: Contact, p: Pair, limit: real, sqrt: real -> real)
    requires limit >= 0.0 && Touching(c)
    ensures WithFriction(c, p, limit, sqrt) ==
      if Slides(c, p, sqrt) then Push(p, Tangent(c, p, sqrt), c.wa, c.wb, FrictionOf(c, p, limit, sqrt)) else p
  {
  }

  // Friction acts across the normal: the bodies still part as they did.
  lemma FrictionAcross(c: Contact, p: Pair, limit: real, sqrt: real -> real)
    requires limit >= 0.0 && Touching(c) && SquareRoots(sqrt)
    ensures Approach(c, WithFriction(c, p, limit, sqrt)) == Approach(c, p)
  {
    WithFrictionPushes(c, p, limit, sqrt);
    if Slides(c, p, sqrt) {
      TangentOf(c, p, sqrt);
      PushRelative(p, Tangent(c, p, sqrt), c.wa, c.wb, FrictionOf(c, p, limit, sqrt), c.n);
    }
  }

  lemma FrictionWork(c: Contact, p: Pair, limit: real, sqrt: real -> real)
    requires limit >= 0.0 && Touching(c) && SquareRoots(sqrt) && Slides(c, p, sqrt)
    ensures Work(FrictionOf(c, p, limit, sqrt), Dot(Relative(p), Tangent(c, p, sqrt)), c.wa + c.wb) <= 0.0
  {
    TangentOf(c, p, sqrt);
    FrictionScalars(Dot(Relative(p), Tangent(c, p, sqrt)), c.wa + c.wb, limit, FrictionOf(c, p, limit, sqrt));
  }

  lemma FrictionLoses(c: Contact, p: Pair, limit: real, sqrt: real -> real, ma: real, mb: real)
    requires limit >= 0.0 && Touching(c) && SquareRoots(sqrt) && Side(ma, c.wa, p.a) && Side(mb, c.wb, p.b)
    ensures Kinetic(ma, mb, WithFriction(c, p, limit, sqrt)) <= Kinetic(ma, mb, p)
  {
    WithFrictionPushes(c, p, limit, sqrt);
    if Slides(c, p, sqrt) {
      TangentOf(c, p, sqrt);
      FrictionWork(c, p, limit, sqrt);
      PushLoses(ma, mb, p, Tangent(c, p, sqrt), c.wa, c.wb, FrictionOf(c, p, limit, sqrt));
    }
  }

  // How fast the bodies slide over each other along t.
  function Sliding(p: Pair, t: Vec): real { Dot(Relative(p), t) }

  function Braked(speed: real, k: real, w: real): real { speed + k * w }

  lemma PushSlides(p: Pair, t: Vec, wa: real, wb: real, k: real)
    requires Dot(t, t) == 1.0
    ensures Sliding(Push(p, t, wa, wb, k), t) == Braked(Sliding(p, t), k, wa + wb)
  {
    PushRelative(p, t, wa, wb, k, t);
  }

  // Sliding slows by the friction limit times the inverse masses, and at most to a stop.
  lemma FrictionSlows(c: Contact, p: Pair, limit: real, sqrt: real -> real)
    requires limit >= 0.0 && Touching(c) && SquareRoots(sqrt) && Slides(c, p, sqrt)
    ensures var t, w := Tangent(c, p, sqrt), c.wa + c.wb;
      Sliding(WithFriction(c, p, limit, sqrt), t) == if limit * w >= Sliding(p, t) then 0.0 else Sliding(p, t) - limit * w
  {
    var t := Tangent(c, p, sqrt);
    WithFrictionPushes(c, p, limit, sqrt);
    TangentOf(c, p, sqrt);
    SlowedPush(p, t, c.wa, c.wb, Sliding(p, t), limit, FrictionOf(c, p, limit, sqrt));
  }

  lemma SlowedPush(p: Pair, t: Vec, wa: real, wb: real, speed: real, limit: real, k: real)
    requires Dot(t, t) == 1.0 && speed == Sliding(p, t) && speed > 0.0 && wa + wb > 0.0 && limit >= 0.0
    requires k == Brake(speed, wa + wb, limit)
    ensures Sliding(Push(p, t, wa, wb, k), t) == if limit * (wa + wb) >= speed then 0.0 else speed - limit * (wa + wb)
  {
    PushSlides(p, t, wa, wb, k);
    Slowed(speed, wa + wb, limit, k);
  }

  lemma Slowed(speed: real, w: real, limit: real, k: real)
    requires speed > 0.0 && w > 0.0 && limit >= 0.0 && k == Brake(speed, w, limit)
    ensures Braked(speed, k, w) == if limit * w >= speed then 0.0 else speed - limit * w
  {
    var q := speed / w;
    assert q * w == speed && -speed / w == -q;
    NotNegative(speed, w);
    if limit >= q {
      Product(limit - q, w);
      assert (limit - q) * w == limit * w - speed;
    } else {
      Positive(q - limit, w);
      assert (q - limit) * w == speed - limit * w;
    }
  }

  lemma Positive(x: real, y: real)
    requires x > 0.0 && y > 0.0
    ensures x * y > 0.0
  {
  }

  // ---------- the whole response ----------

  // Two moving bodies: momentum is conserved.
  lemma MomentumConserved(c: Contact, p: Pair, sqrt: real -> real, ma: real, mb: real)
    requires Touching(c) && ma * c.wa == 1.0 && mb * c.wb == 1.0
    ensures Momentum(ma, mb, Response(c, p, sqrt)) == Momentum(ma, mb, p)
  {
    if Approach(c, p) < 0.0 {
      NormalMomentum(c, p, ma, mb);
      FrictionMomentum(c, Push(p, c.n, c.wa, c.wb, NormalImpulse(c, p)), Limit(c, NormalImpulse(c, p)), sqrt, ma, mb);
    }
  }

  lemma NormalMomentum(c: Contact, p: Pair, ma: real, mb: real)
    requires Touching(c) && ma * c.wa == 1.0 && mb * c.wb == 1.0
    ensures Momentum(ma, mb, Push(p, c.n, c.wa, c.wb, NormalImpulse(c, p))) == Momentum(ma, mb, p)
  {
    PushMomentum(ma, mb, p, c.n, c.wa, c.wb, NormalImpulse(c, p));
  }

  lemma FrictionMomentum(c: Contact, p: Pair, limit: real, sqrt: real -> real, ma: real, mb: real)
    requires limit >= 0.0 && Touching(c) && ma * c.wa == 1.0 && mb * c.wb == 1.0
    ensures Momentum(ma, mb, WithFriction(c, p, limit, sqrt)) == Momentum(ma, mb, p)
  {
    WithFrictionPushes(c, p, limit, sqrt);
    if Slides(c, p, sqrt) {
      PushMomentum(ma, mb, p, Tangent(c, p, sqrt), c.wa, c.wb, FrictionOf(c, p, limit, sqrt));
    }
  }

  // Kinetic energy never grows, whatever the friction; the bodies part exactly as restitution says.
  lemma EnergyNeverGrows(c: Contact, p: Pair, sqrt: real -> real, ma: real, mb: real)
    requires Touching(c) && SquareRoots(sqrt) && Side(ma, c.wa, p.a) && Side(mb, c.wb, p.b)
    ensures Kinetic(ma, mb, Response(c, p, sqrt)) <= Kinetic(ma, mb, p)
  {
    if Approach(c, p) < 0.0 {
      var j := NormalImpulse(c, p);
      NormalLoses(c, p, ma, mb);
      PushSides(ma, mb, p, c.n, c.wa, c.wb, j);
      FrictionLoses(c, Push(p, c.n, c.wa, c.wb, j), Limit(c, j), sqrt, ma, mb);
    }
  }

  lemma PartingSpeed(c: Contact, p: Pair, sqrt: real -> real)
    requires Touching(c) && SquareRoots(sqrt)
    ensures Approach(c, Response(c, p, sqrt)) ==
      if Approach(c, p) < 0.0 then -c.restitution * Approach(c, p) else Approach(c, p)
  {
    if Approach(c, p) < 0.0 {
      Restitution(c, p);
      FrictionAcross(c, Push(p, c.n, c.wa, c.wb, NormalImpulse(c, p)), Limit(c, NormalImpulse(c, p)), sqrt);
    }
  }

  // The normal impulse does not change how the bodies slide.
  lemma PushKeepsTangential(c: Contact, p: Pair, k: real)
    requires Touching(c)
    ensures Tangential(c, Push(p, c.n, c.wa, c.wb, k)) == Tangential(c, p)
  {
    var u, v := Dot(Relative(p), c.n), Dot(Relative(Push(p, c.n, c.wa, c.wb, k)), c.n);
    PushApproach(c, p, k);
    PushAcross(p, c.n, c.wa, c.wb, k, u, v);
  }

  lemma PushApproach(c: Contact, p: Pair, k: real)
    requires Touching(c)
    ensures Dot(Relative(Push(p, c.n, c.wa, c.wb, k)), c.n) == Dot(Relative(p), c.n) + k * (c.wa + c.wb)
  {
    PushRelative(p, c.n, c.wa, c.wb, k, c.n);
  }

  lemma PushAcross(p: Pair, n: Vec, wa: real, wb: real, k: real, u: real, v: real)
    requires v == u + k * (wa + wb)
    ensures Subtract(Relative(Push(p, n, wa, wb, k)), Scale(n, v)) == Subtract(Relative(p), Scale(n, u))
  {
    var q := Push(p, n, wa, wb, k);
    AcrossKept(p.a.x, p.b.x, q.a.x, q.b.x, n.x, wa, wb, k, u, v);
    AcrossKept(p.a.y, p.b.y, q.a.y, q.b.y, n.y, wa, wb, k, u, v);
    AcrossKept(p.a.z, p.b.z, q.a.z, q.b.z, n.z, wa, wb, k, u, v);
  }

  lemma AcrossKept(a: real, b: real, a1: real, b1: real, n: real, wa: real, wb: real, k: real, u: real, v: real)
    requires v == u + k * (wa + wb) && a1 == a + n * (-k * wa) && b1 == b + n * (k * wb)
    ensures b1 - a1 - n * v == b - a - n * u
  {
  }

  // The speed the normal impulse gives the bodies along the normal.
  lemma ImpulseMeans(c: Contact, p: Pair)
    requires Touching(c) && Approach(c, p) < 0.0
    ensures NormalImpulse(c, p) * (c.wa + c.wb) == (1.0 + c.restitution) * -Approach(c, p) && NormalImpulse(c, p) >= 0.0
  {
    NormalScalars(c.restitution, Approach(c, p), c.wa + c.wb);
    NormalWork(c, p);
  }

  lemma LimitMeans(c: Contact, p: Pair)
    requires Touching(c) && Approach(c, p) < 0.0
    ensures Limit(c, NormalImpulse(c, p)) * (c.wa + c.wb) == c.friction * ((1.0 + c.restitution) * -Approach(c, p))
  {
    var j, w := NormalImpulse(c, p), c.wa + c.wb;
    ImpulseMeans(c, p);
    Reorder(j, c.friction, w);
  }

  lemma Reorder(j: real, f: real, w: real)
    ensures (j * f) * w == f * (j * w)
  {
  }

  // Bodies that meet slide on more slowly by the friction coefficient times the change of their normal
  // speed, and at most come to a stop; slow sliding is left alone.
  lemma ResponseSlows(c: Contact, p: Pair, sqrt: real -> real)
    requires Touching(c) && SquareRoots(sqrt) && Approach(c, p) < 0.0
    ensures var raw := Subtract(Relative(p), Scale(c.n, Dot(Relative(p), c.n)));
      var speed, slowing := sqrt(Dot(raw, raw)), c.friction * ((1.0 + c.restitution) * -Approach(c, p));
      && (speed > 0.000000001 ==>
            Dot(Relative(Response(c, p, sqrt)), Scale(raw, 1.0 / speed)) == if slowing >= speed then 0.0 else speed - slowing)
      && (speed <= 0.000000001 ==> Relative(Response(c, p, sqrt)) == Relative(Push(p, c.n, c.wa, c.wb, NormalImpulse(c, p))))
  {
    var j := NormalImpulse(c, p);
    var q := Push(p, c.n, c.wa, c.wb, j);
    PushKeepsTangential(c, p, j);
    LimitMeans(c, p);
    WithFrictionPushes(c, q, Limit(c, j), sqrt);
    if Slides(c, q, sqrt) {
      TangentOf(c, q, sqrt);
      FrictionSlows(c, q, Limit(c, j), sqrt);
    }
  }

  // ---------- bodies ----------

  const MIN_MASS: real := 0.001

  function InverseMass(dynamic: bool, mass: real): real {
    if dynamic then 1.0 / Max(MIN_MASS, mass) else 0.0
  }

  class Body {
    var position: Vec
    var velocity: Vec
    var mass: real
    var restitution: real
    var friction: real
    var dynamic: bool

    predicate Valid()
      reads this
    {
      MIN_MASS <= mass <= 100000.0 && 0.0 <= restitution <= 1.0 && 0.0 <= friction <= 2.0
    }

    function Inverse(): real
      reads this
    {
      InverseMass(dynamic, mass)
    }

    constructor (position: Vec, velocity: Vec, mass: real, restitution: real, friction: real, dynamic: bool)
      ensures Valid() && this.position == position && this.velocity == velocity && this.dynamic == dynamic
      ensures this.mass == if mass < 0.001 then 0.001 else if mass > 100000.0 then 100000.0 else mass
      ensures this.restitution == if restitution < 0.0 then 0.0 else if restitution > 1.0 then 1.0 else restitution
      ensures this.friction == if friction < 0.0 then 0.0 else if friction > 2.0 then 2.0 else friction
    {
      this.position, this.velocity, this.dynamic := position, velocity, dynamic;
      this.mass := Clamp(mass, MIN_MASS, 100000.0);
      this.restitution := Clamp(restitution, 0.0, 1.0);
      this.friction := Clamp(friction, 0.0, 2.0);
    }
  }

  function Correction(penetration: real, total: real): real
    requires total > 0.0
  {
    Max(0.0, penetration - 0.0001) * 0.8 / total
  }

  function ContactOf(a: Body, b: Body, n: Vec, sqrt: real -> real): Contact
    reads a, b
  {
    Contact(n, a.Inverse(), b.Inverse(), Min(a.restitution, b.restitution), sqrt(a.friction * b.friction))
  }

  function Velocities(a: Body, b: Body): Pair
    reads a, b
  {
    Pair(a.velocity, b.velocity)
  }

  function Positions(a: Body, b: Body): Pair
    reads a, b
  {
    Pair(a.position, b.position)
  }

  lemma BodiesTouch(a: Body, b: Body, n: Vec, sqrt: real -> real)
    requires a.Valid() && b.Valid() && (a.dynamic || b.dynamic) && Dot(n, n) == 1.0 && SquareRoots(sqrt)
    ensures Touching(ContactOf(a, b, n, sqrt))
    ensures a.dynamic ==> a.mass * a.Inverse() == 1.0
    ensures b.dynamic ==> b.mass * b.Inverse() == 1.0
  {
    Product(a.friction, b.friction);
  }

  // Two bodies in contact: the smaller restitution, the geometric mean of the frictions, and the inverse of
  // each mass, 0 for a body that is fixed.
  lemma ContactMeans(a: Body, b: Body, n: Vec, sqrt: real -> real)
    requires a.Valid() && b.Valid() && SquareRoots(sqrt)
    ensures var c := ContactOf(a, b, n, sqrt);
      && c.n == n && c.restitution <= a.restitution && c.restitution <= b.restitution
      && (c.restitution == a.restitution || c.restitution == b.restitution)
      && c.friction >= 0.0 && c.friction * c.friction == a.friction * b.friction
      && (if a.dynamic then c.wa * a.mass == 1.0 else c.wa == 0.0)
      && (if b.dynamic then c.wb * b.mass == 1.0 else c.wb == 0.0)
  {
    Product(a.friction, b.friction);
  }

  // One pair of the solver's loop; n and penetration come from the shapes.
  method ResolvePair(a: Body, b: Body, n: Vec, penetration: real, sqrt: real -> real) returns (impulse: real)
    requires a != b && a.Valid() && b.Valid() && Dot(n, n) == 1.0 && SquareRoots(sqrt)
    modifies a`position, a`velocity, b`position, b`velocity
    ensures (!a.dynamic && !b.dynamic) || penetration <= 0.0 ==>
      Velocities(a, b) == old(Velocities(a, b)) && Positions(a, b) == old(Positions(a, b)) && impulse == 0.0
    ensures (a.dynamic || b.dynamic) && penetration > 0.0 ==>
      var c := old(ContactOf(a, b, n, sqrt));
      && Touching(c)
      && Velocities(a, b) == Response(c, old(Velocities(a, b)), sqrt)
      && Positions(a, b) == Push(old(Positions(a, b)), n, c.wa, c.wb, Correction(penetration, c.wa + c.wb))
      && impulse == Abs(NormalImpulse(c, old(Velocities(a, b))))
  {
    if (!a.dynamic && !b.dynamic) || penetration <= 0.0 {
      return 0.0;
    }
    BodiesTouch(a, b, n, sqrt);
    var c := ContactOf(a, b, n, sqrt);
    var correction := Correction(penetration, c.wa + c.wb);
    Move(a, b, n, c.wa, c.wb, correction);
    impulse := Rebound(a, b, c, sqrt);
  }

  method Rebound(a: Body, b: Body, c: Contact, sqrt: real -> real) returns (impulse: real)
    requires a != b && Touching(c) && (!a.dynamic ==> c.wa == 0.0) && (!b.dynamic ==> c.wb == 0.0)
    modifies a`velocity, b`velocity
    ensures Velocities(a, b) == Response(c, old(Velocities(a, b)), sqrt)
    ensures impulse == Abs(NormalImpulse(c, old(Velocities(a, b))))
  {
    var j := NormalImpulse(c, Velocities(a, b));
    impulse := Abs(j);
    if Approach(c, Velocities(a, b)) < 0.0 {
      Strike(a, b, c.n, c.wa, c.wb, j);
      Rub(a, b, c, Limit(c, j), sqrt);
    }
  }

  method Rub(a: Body, b: Body, c: Contact, limit: real, sqrt: real -> real)
    requires a != b && limit >= 0.0 && Touching(c) && (!a.dynamic ==> c.wa == 0.0) && (!b.dynamic ==> c.wb == 0.0)
    modifies a`velocity, b`velocity
    ensures Velocities(a, b) == WithFriction(c, old(Velocities(a, b)), limit, sqrt)
  {
    var p := Velocities(a, b);
    WithFrictionPushes(c, p, limit, sqrt);
    if Slides(c, p, sqrt) {
      Strike(a, b, Tangent(c, p, sqrt), c.wa, c.wb, FrictionOf(c, p, limit, sqrt));
    }
  }

  method Strike(a: Body, b: Body, d: Vec, wa: real, wb: real, k: real)
    requires a != b && (!a.dynamic ==> wa == 0.0) && (!b.dynamic ==> wb == 0.0)
    modifies a`velocity, b`velocity
    ensures Velocities(a, b) == Push(old(Velocities(a, b)), d, wa, wb, k)
  {
    if a.dynamic {
      a.velocity := AddScaled(a.velocity, d, -k * wa);
    }
    if b.dynamic {
      b.velocity := AddScaled(b.velocity, d, k * wb);
    }
  }

  method Move(a: Body, b: Body, d: Vec, wa: real, wb: real, k: real)
    requires a != b && (!a.dynamic ==> wa == 0.0) && (!b.dynamic ==> wb == 0.0)
    modifies a`position, b`position
    ensures Positions(a, b) == Push(old(Positions(a, b)), d, wa, wb, k)
  {
    if a.dynamic {
      a.position := AddScaled(a.position, d, -k * wa);
    }
    if b.dynamic {
      b.position := AddScaled(b.position, d, k * wb);
    }
  }

  // The correction moves the bodies apart along the normal by four fifths of what exceeds the slop,
  // and leaves the centre of mass of two moving bodies where it was.
  lemma CorrectionSeparates(c: Contact, p: Pair, penetration: real, ma: real, mb: real)
    requires Touching(c)
    ensures var q := Push(p, c.n, c.wa, c.wb, Correction(penetration, c.wa + c.wb));
      && Dot(Relative(q), c.n) == Dot(Relative(p), c.n) + Max(0.0, penetration - 0.0001) * 0.8
      && (ma * c.wa == 1.0 && mb * c.wb == 1.0 ==> Momentum(ma, mb, q) == Momentum(ma, mb, p))
  {
    var k := Correction(penetration, c.wa + c.wb);
    PushRelative(p, c.n, c.wa, c.wb, k, c.n);
    if ma * c.wa == 1.0 && mb * c.wb == 1.0 {
      PushMomentum(ma, mb, p, c.n, c.wa, c.wb, k);
    }
  }
}
