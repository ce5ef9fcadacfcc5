/** The testimonial carousel of js/index.js: one continuous `progress`
    value over [0, 10n] for n items, the derived front-most item `active`,
    and per item a depth (`--zIndex`) and a signed offset (`--active`).
    Numbers are exact reals; floating-point rounding is not modelled. */
module Carousel {
  import opened Text

  const SpeedDrag: real := -0.1

  function Abs(x: int): nat {
    if x < 0 then -x else x
  }

  /** `getZindex(items, a)`: the item at `a` gets n, every other item n less
      its distance from `a`. */
  function Zindex(n: nat, a: int): (z: seq<int>)
    ensures |z| == n
  {
    seq(n, i => if a == i then n else n - Abs(a - i))
  }

  /** The `--active` property of every item: (i - a) / n. */
  function Offsets(n: nat, a: int): (o: seq<real>)
    requires n >= 1
    ensures |o| == n
  {
    seq(n, i => (i - a) as real / n as real)
  }

  /** For a front item inside the carousel every depth lies in [1, n], the
      front item alone is at depth n, and nearer items lie above farther
      ones. */
  lemma ZindexOrder(n: nat, a: int)
    requires 0 <= a < n
    ensures forall i :: 0 <= i < n ==> 1 <= Zindex(n, a)[i] <= n
    ensures forall i :: 0 <= i < n ==> (Zindex(n, a)[i] == n <==> i == a)
    ensures forall i, j :: 0 <= i < n && 0 <= j < n && Abs(a - i) < Abs(a - j) ==> Zindex(n, a)[i] > Zindex(n, a)[j]
  {
    var z := Zindex(n, a);
    forall i | 0 <= i < n ensures z[i] == n - Abs(a - i) {
    }
  }

  /** `Math.max(0, Math.min(progress, n * 10))`. */
  function Clamp(p: real, n: nat): real {
    if p < 0.0 then 0.0 else if p > (n * 10) as real then (n * 10) as real else p
  }

  /** `Math.floor((progress / (n * 10)) * (n - 1))`. */
  function ActiveOf(p: real, n: nat): int
    requires n >= 1
  {
    ((p / (n * 10) as real) * (n - 1) as real).Floor
  }

  /** The quotient of a and b lies in [k, k + 1) exactly when its floor is k. */
  lemma FloorOfQuotient(a: int, b: int, k: int)
    requires b > 0 && k * b <= a < (k + 1) * b
    ensures (a as real / b as real).Floor == k
  {
    var x := a as real / b as real;
    assert x * b as real == a as real;
    assert k as real <= x;
    assert x < (k + 1) as real;
  }

  /** Any clamped progress puts the front item inside the carousel. */
  lemma ActiveInRange(p: real, n: nat)
    requires n >= 1 && 0.0 <= p <= (n * 10) as real
    ensures 0 <= ActiveOf(p, n) < n
  {
    var q := p / (n * 10) as real;
    assert 0.0 <= q <= 1.0;
    var x := q * (n - 1) as real;
    assert 0.0 <= x;
    assert x <= (n - 1) as real by {
      assert (1.0 - q) * (n - 1) as real >= 0.0;
    }
  }

  /** More progress never moves the front item back. */
  lemma ActiveMonotone(p: real, q: real, n: nat)
    requires n >= 1 && p <= q
    ensures ActiveOf(p, n) <= ActiveOf(q, n)
  {
    var a, b := p / (n * 10) as real, q / (n * 10) as real;
    assert a <= b;
    assert (b - a) * (n - 1) as real >= 0.0;
  }

  /** A drag to the right (the pointer moved by dx >= 0) never brings a
      later item to the front, and a drag to the left never an earlier one. */
  lemma DragDirection(p: real, dx: real, n: nat)
    requires n >= 1
    ensures dx >= 0.0 ==> ActiveOf(Clamp(p + dx * SpeedDrag, n), n) <= ActiveOf(Clamp(p, n), n)
    ensures dx <= 0.0 ==> ActiveOf(Clamp(p + dx * SpeedDrag, n), n) >= ActiveOf(Clamp(p, n), n)
  {
    if dx >= 0.0 {
      ActiveMonotone(Clamp(p + dx * SpeedDrag, n), Clamp(p, n), n);
    }
    if dx <= 0.0 {
      ActiveMonotone(Clamp(p, n), Clamp(p + dx * SpeedDrag, n), n);
    }
  }

  /** The progress a click on item i sets: `(i / n) * n * 10 + 10`. */
  function JumpProgress(i: int, n: nat): real
    requires n >= 1
  {
    (i as real / n as real) * n as real * 10.0 + 10.0
  }

  /** Clicking item i brings item i to the front. */
  lemma JumpMakesActive(i: int, n: nat)
    requires 0 <= i < n
    ensures JumpProgress(i, n) == (10 * i + 10) as real
    ensures ActiveOf(Clamp(JumpProgress(i, n), n), n) == i
  {
    assert (i as real / n as real) * n as real == i as real;
    var p := Clamp(JumpProgress(i, n), n);
    if i == n - 1 {
      assert p == (n * 10) as real;
      assert p / (n * 10) as real == 1.0;
    } else {
      assert p == (10 * (i + 1)) as real;
      assert p / (n * 10) as real == (i + 1) as real / n as real;
      assert (p / (n * 10) as real) * (n - 1) as real == ((i + 1) * (n - 1)) as real / n as real;
      FloorOfQuotient((i + 1) * (n - 1), n, i);
    }
  }

  datatype Direction = Prev | Next

  /** The item `navigateCarousel` moves to: one step, wrapping at both ends. */
  function NavTarget(active: int, n: nat, dir: Direction): int {
    match dir
    case Prev => if active > 0 then active - 1 else n - 1
    case Next => if active < n - 1 then active + 1 else 0
  }

  /** The arrows wrap around: prev from the first item goes to the last,
      next from the last to the first, and otherwise they move one step. */
  lemma NavWraps(a: int, n: nat)
    requires 0 <= a < n
    ensures 0 <= NavTarget(a, n, Prev) < n && 0 <= NavTarget(a, n, Next) < n
    ensures NavTarget(a, n, Prev) == if a == 0 then n - 1 else a - 1
    ensures NavTarget(a, n, Next) == if a == n - 1 then 0 else a + 1
    ensures NavTarget(NavTarget(a, n, Prev), n, Next) == a && NavTarget(NavTarget(a, n, Next), n, Prev) == a
  {
  }

  /** The progress `navigateCarousel` sets for target t:
      `(t / (n - 1)) * n * 10 + 10`. */
  function NavProgress(t: int, n: nat): real
    requires n >= 2
  {
    (t as real / (n - 1) as real) * n as real * 10.0 + 10.0
  }

  /** The scaled navigation progress, divided back by 10n and times n - 1,
      is t plus (n - 1) / n. */
  lemma NavAlgebra(t: real, m: real, k: real)
    requires m > 0.0 && k == m + 1.0
    ensures ((t / m) * k * 10.0 + 10.0) / (k * 10.0) * m == t + m / k
  {
    var u := t / m;
    assert u * m == t;
    assert (u * k * 10.0 + 10.0) / (k * 10.0) == u + 1.0 / k;
    assert (u + 1.0 / k) * m == u * m + m / k;
  }

  /** Before the last item the navigation progress stays within 10n. */
  lemma NavScale(t: real, m: real, k: real)
    requires m > 0.0 && k == m + 1.0 && 0.0 <= t <= m - 1.0
    ensures 0.0 <= (t / m) * k * 10.0 + 10.0 <= k * 10.0
  {
    var u := t / m;
    assert u * m == t;
    assert 0.0 <= u;
    assert u <= 1.0 - 1.0 / m by {
      assert (m - 1.0) / m == 1.0 - 1.0 / m;
    }
    assert u * k <= (1.0 - 1.0 / m) * k;
    assert (1.0 - 1.0 / m) * k == m - 1.0 / m;
    assert 1.0 / m > 0.0;
  }

  /** With at least two items, navigating to t brings t to the front. */
  lemma NavigateMakesActive(t: int, n: nat)
    requires n >= 2 && 0 <= t < n
    ensures ActiveOf(Clamp(NavProgress(t, n), n), n) == t
  {
    if t == n - 1 {
      NavigateToLast(n);
    } else {
      NavigateBeforeLast(t, n);
    }
  }

  /** Navigating to the last item overshoots 10n and is clamped to it. */
  lemma NavigateToLast(n: nat)
    requires n >= 2
    ensures ActiveOf(Clamp(NavProgress(n - 1, n), n), n) == n - 1
  {
    var m := (n - 1) as real;
    assert (n - 1) as real / m == 1.0;
    assert Clamp(NavProgress(n - 1, n), n) == (n * 10) as real;
    assert (n * 10) as real / (n * 10) as real == 1.0;
  }

  /** Navigating to an item before the last lands within [t, t + 1) once
      scaled back. */
  lemma NavigateBeforeLast(t: int, n: nat)
    requires n >= 2 && 0 <= t < n - 1
    ensures ActiveOf(Clamp(NavProgress(t, n), n), n) == t
  {
    var m := (n - 1) as real;
    var p := NavProgress(t, n);
    NavScale(t as real, m, n as real);
    assert Clamp(p, n) == p;
    NavAlgebra(t as real, m, n as real);
    assert (p / (n * 10) as real) * m == t as real + m / n as real;
    assert 0.0 <= m / n as real < 1.0;
  }

  /** The pointer coordinate the drag handlers read:
      `e.clientX || (e.touches && e.touches[0].clientX) || 0`, where an
      absent value stands for `undefined`. */
  function PointerX(clientX: Option<real>, touchX: Option<real>): (x: real)
    ensures x == 0.0 || Some(x) == clientX || Some(x) == touchX
    ensures clientX.Some? && clientX.value != 0.0 ==> x == clientX.value
    ensures clientX.None? || clientX.value == 0.0 ==> x == (if touchX.Some? then touchX.value else 0.0)
  {
    if clientX.Some? && clientX.value != 0.0 then clientX.value
    else if touchX.Some? && touchX.value != 0.0 then touchX.value
    else 0.0
  }

  class Carousel {
    const n: nat
    var progress: real
    var active: int
    var isDown: bool
    var startX: real
    /** The `--zIndex` and `--active` style properties of the items. */
    const zIndex: array<int>
    const offset: array<real>

    /** Between events `active` is the front item `progress` determines and
        every item's styles agree with it. */
    ghost predicate Valid()
      reads this, zIndex, offset
    {
      && n >= 1 && zIndex.Length == n && offset.Length == n
      && 0.0 <= progress <= (n * 10) as real
      && active == ActiveOf(progress, n) && 0 <= active < n
      && zIndex[..] == Zindex(n, active) && offset[..] == Offsets(n, active)
    }

    /** The initial state: progress at the middle, `5n`, then `animate()`. */
    constructor(n: nat)
      requires n >= 1
      ensures Valid() && this.n == n && !isDown && startX == 0.0
      ensures progress == (5 * n) as real
    {
      this.n := n;
      zIndex := new int[n];
      offset := new real[n];
      progress := (10 * n) as real / 2.0;
      active := 0;
      isDown := false;
      startX := 0.0;
      new;
      Animate();
    }

    /** `animate()`: clamp the progress, derive the front item, and restyle
        every item. */
    method Animate()
      requires n >= 1 && zIndex.Length == n && offset.Length == n
      modifies this, zIndex, offset
      ensures Valid()
      ensures progress == Clamp(old(progress), n) && isDown == old(isDown) && startX == old(startX)
    {
      progress := Clamp(progress, n);
      active := ActiveOf(progress, n);
      ActiveInRange(progress, n);
      var z := Zindex(n, active);
      var i := 0;
      while i < n
        invariant 0 <= i <= n
        modifies zIndex, offset
        invariant forall j :: 0 <= j < i ==> zIndex[j] == z[j] && offset[j] == (j - active) as real / n as real
      {
        zIndex[i] := z[i];
        offset[i] := (i - active) as real / n as real;
        i := i + 1;
      }
      assert forall j :: 0 <= j < n ==> zIndex[..][j] == Zindex(n, active)[j];
      assert forall j :: 0 <= j < n ==> offset[..][j] == Offsets(n, active)[j];
    }

    /** A click on item i brings it to the front. */
    method ClickItem(i: nat)
      requires Valid() && i < n
      modifies this, zIndex, offset
      ensures Valid() && active == i && zIndex[i] == n
      ensures progress == Clamp((10 * i + 10) as real, n) && isDown == old(isDown) && startX == old(startX)
    {
      progress := JumpProgress(i, n);
      JumpMakesActive(i, n);
      Animate();
      ZindexOrder(n, active);
    }

    /** `handleMouseDown`: start a drag at the pointer. */
    method MouseDown(clientX: Option<real>, touchX: Option<real>)
      requires Valid()
      modifies this`isDown, this`startX
      ensures Valid() && isDown && startX == PointerX(clientX, touchX)
    {
      isDown := true;
      startX := PointerX(clientX, touchX);
    }

    /** `handleMouseMove`: while dragging, move the progress by the pointer's
        displacement times the drag speed and follow the pointer. */
    method MouseMove(clientX: Option<real>, touchX: Option<real>)
      requires Valid()
      modifies this, zIndex, offset
      ensures Valid() && isDown == old(isDown)
      ensures !old(isDown) ==> progress == old(progress) && active == old(active) && startX == old(startX)
      ensures old(isDown) ==>
        var x := PointerX(clientX, touchX);
        progress == Clamp(old(progress) + (x - old(startX)) * SpeedDrag, n) && startX == x
    {
      if !isDown {
        return;
      }
      var x := PointerX(clientX, touchX);
      var moved := (x - startX) * SpeedDrag;
      progress := progress + moved;
      startX := x;
      Animate();
    }

    /** `handleMouseUp`: end the drag; nothing keeps moving. */
    method MouseUp()
      requires Valid()
      modifies this`isDown
      ensures Valid() && !isDown
    {
      isDown := false;
    }

    /** `navigateCarousel`: step to the neighbouring item, wrapping at the
        ends, and bring it to the front. */
    method Navigate(dir: Direction)
      requires Valid() && n >= 2
      modifies this, zIndex, offset
      ensures Valid() && active == NavTarget(old(active), n, dir)
      ensures progress == Clamp(NavProgress(active, n), n)
      ensures isDown == old(isDown) && startX == old(startX)
    {
      active := NavTarget(active, n, dir);
      NavWraps(old(active), n);
      progress := NavProgress(active, n);
      NavigateMakesActive(active, n);
      Animate();
    }
  }
}
