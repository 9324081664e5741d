/**
 * The PSO particle of src/pso/particle.rs: a position, a velocity and an
 * optional personal best position, each replaced in place by its setter.
 */
module PsoParticle {
  import opened Wrappers

  /**
   * A value copy of a particle (`#[derive(Clone)]`). The optimizer's
   * recorded log keeps such copies, and the init hooks work on them.
   */
  datatype ParticleRecord = ParticleRecord(pos: seq<real>, vel: seq<real>, bestPos: Option<seq<real>>)

  /** `DVector::from_element(n, 0.)`. */
  function Zeros(n: nat): (v: seq<real>)
    ensures |v| == n
    ensures forall i :: 0 <= i < n ==> v[i] == 0.0
  {
    seq(n, _ => 0.0)
  }

  /** The particle `new` builds before running any init hook. */
  function Blank(dim: nat): (r: ParticleRecord)
    ensures |r.pos| == dim && |r.vel| == dim && r.bestPos == None
    ensures forall i :: 0 <= i < dim ==> r.pos[i] == 0.0 && r.vel[i] == 0.0
  {
    ParticleRecord(Zeros(dim), Zeros(dim), None)
  }

  /**
   * The three init hooks `Position::init`, `BestPosition::init` and
   * `Velocity::init`. Their bodies (random initialisation within the
   * problem's bounds) are not part of this model: each is a given
   * transformation of the particle, and the position and velocity hooks
   * also see the problem's dimension.
   */
  datatype InitHooks = InitHooks(
    position: (nat, ParticleRecord) -> ParticleRecord,
    bestPosition: ParticleRecord -> ParticleRecord,
    velocity: (nat, ParticleRecord) -> ParticleRecord)

  /** What `new` produces: the blank particle passed through the hooks in source order. */
  function Initialised(dim: nat, hooks: InitHooks): ParticleRecord {
    hooks.velocity(dim, hooks.bestPosition(hooks.position(dim, Blank(dim))))
  }

  /** A hook that leaves the best position as it found it. */
  ghost predicate KeepsBestPos(hook: ParticleRecord -> ParticleRecord) {
    forall r :: hook(r).bestPos == r.bestPos
  }

  /**
   * `new` starts with no best position, so a particle whose hooks leave the
   * best position alone reports `None` until `set_best_pos` is called.
   */
  lemma InitialisedWithoutBestPos(dim: nat, hooks: InitHooks)
    requires KeepsBestPos(r => hooks.position(dim, r))
    requires KeepsBestPos(hooks.bestPosition)
    requires KeepsBestPos(r => hooks.velocity(dim, r))
    ensures Initialised(dim, hooks).bestPos == None
  {
    var r0 := Blank(dim);
    var r1 := hooks.position(dim, r0);
    var r2 := hooks.bestPosition(r1);
    assert (r => hooks.position(dim, r))(r0) == r1;
    assert (r => hooks.velocity(dim, r))(r2) == hooks.velocity(dim, r2);
  }

  class Particle {
    var pos: seq<real>
    var vel: seq<real>
    var bestPos: Option<seq<real>>

    /** `clone()`: the particle's current value. */
    function Snapshot(): ParticleRecord
      reads this
    {
      ParticleRecord(pos, vel, bestPos)
    }

    /**
     * `ParticleTrait::new`: zero position and velocity of the problem's
     * dimension and no best position, then the hooks Position,
     * BestPosition and Velocity, in that order, each seeing the previous
     * hook's result.
     */
    constructor (dim: nat, hooks: InitHooks)
      ensures Snapshot() == Initialised(dim, hooks)
    {
      pos, vel, bestPos := Zeros(dim), Zeros(dim), None;
      new;
      assert Snapshot() == Blank(dim);
      Load(hooks.position(dim, Snapshot()));
      Load(hooks.bestPosition(Snapshot()));
      Load(hooks.velocity(dim, Snapshot()));
    }

    /** Applies the effect of one init hook. */
    method Load(r: ParticleRecord)
      modifies this
      ensures Snapshot() == r
    {
      pos, vel, bestPos := r.pos, r.vel, r.bestPos;
    }

    function Pos(): seq<real>
      reads this
    {
      pos
    }

    function Vel(): seq<real>
      reads this
    {
      vel
    }

    function OptionBestPos(): Option<seq<real>>
      reads this
    {
      bestPos
    }

    /** `best_pos()` unwraps, so a best position must have been set. */
    function BestPos(): (p: seq<real>)
      reads this
      requires OptionBestPos().Some?
      ensures OptionBestPos() == Some(p)
    {
      bestPos.value
    }

    method SetPos(p: seq<real>)
      modifies this
      ensures Pos() == p
      ensures Snapshot() == old(Snapshot()).(pos := p)
    {
      pos := p;
    }

    method SetVel(v: seq<real>)
      modifies this
      ensures Vel() == v
      ensures Snapshot() == old(Snapshot()).(vel := v)
    {
      vel := v;
    }

    method SetBestPos(p: seq<real>)
      modifies this
      ensures OptionBestPos() == Some(p) && BestPos() == p
      ensures Snapshot() == old(Snapshot()).(bestPos := Some(p))
    {
      bestPos := Some(p);
    }
  }
}
