/** Learning mode: the explanation steps of one simulation, the cursor
    over them, and the particles that animate current along wires. */
module LearningStore {
  import opened Sequences

  datatype Direction = Forward | Reverse

  /** One animated stretch of current along a wire. */
  datatype Flow = Flow(wireId: string, direction: Direction)

  /** One explanation step; its prose description is not modelled. */
  datatype Step = Step(
    id: int, title: string,
    highlightedComponents: seq<string>, highlightedWires: seq<string>,
    currentFlow: seq<Flow>)

  /** A dot moving along a wire; `progress` runs from 0 to 1. */
  datatype Particle = Particle(id: string, wireId: string, progress: real, speed: real)

  /** The share of a particle's speed added per animation tick at speed 1. */
  const TickFactor: real := 0.01

  /** Every particle moved forward by its own speed times `rate`. */
  function Advanced(ps: seq<Particle>, rate: real): (r: seq<Particle>)
    ensures |r| == |ps|
  {
    seq(|ps|, i requires 0 <= i < |ps| => ps[i].(progress := ps[i].progress + ps[i].speed * rate))
  }

  /** A particle that has not run off the end of its wire. */
  predicate OnWire(p: Particle) {
    p.progress <= 1.0
  }

  /** The particles after one tick at `rate`: moved, then those past the
      end dropped. */
  function Ticked(ps: seq<Particle>, rate: real): seq<Particle> {
    Filter(Advanced(ps, rate), OnWire)
  }

  class Store {
    var isLearningMode: bool
    var simulationSpeed: real
    var currentStep: int
    var simulationSteps: seq<Step>
    var particles: seq<Particle>
    var isPlaying: bool
    var userNotes: string

    /** The cursor is 0 or points at a step. */
    ghost predicate Valid()
      reads this
    {
      currentStep == 0 || 0 <= currentStep < |simulationSteps|
    }

    constructor ()
      ensures Valid()
      ensures !isLearningMode && simulationSpeed == 1.0 && currentStep == 0
      ensures simulationSteps == [] && particles == [] && !isPlaying && userNotes == ""
    {
      isLearningMode, simulationSpeed, currentStep := false, 1.0, 0;
      simulationSteps, particles, isPlaying, userNotes := [], [], false, "";
    }

    method SetLearningMode(mode: bool)
      modifies this`isLearningMode
      ensures isLearningMode == mode
    {
      isLearningMode := mode;
    }

    method SetSimulationSpeed(speed: real)
      modifies this`simulationSpeed
      ensures simulationSpeed == speed
    {
      simulationSpeed := speed;
    }

    /** Moves the cursor only to an existing step. */
    method SetCurrentStep(step: int)
      requires Valid()
      modifies this`currentStep
      ensures Valid()
      ensures currentStep == if 0 <= step < |simulationSteps| then step else old(currentStep)
    {
      if step >= 0 && step < |simulationSteps| {
        currentStep := step;
      }
    }

    /** New steps always start from the first one. */
    method SetSimulationSteps(steps: seq<Step>)
      modifies this`simulationSteps, this`currentStep
      ensures Valid()
      ensures simulationSteps == steps && currentStep == 0
    {
      simulationSteps, currentStep := steps, 0;
    }

    method AddParticle(p: Particle)
      modifies this`particles
      ensures particles == old(particles) + [p]
    {
      particles := particles + [p];
    }

    /** One animation tick; nothing moves while paused. */
    method UpdateParticles()
      modifies this`particles
      ensures particles == if isPlaying then Ticked(old(particles), simulationSpeed * TickFactor) else old(particles)
    {
      if !isPlaying {
        return;
      }
      particles := Ticked(particles, simulationSpeed * TickFactor);
    }

    method ClearParticles()
      modifies this`particles
      ensures particles == []
    {
      particles := [];
    }

    method SetIsPlaying(playing: bool)
      modifies this`isPlaying
      ensures isPlaying == playing
    {
      isPlaying := playing;
    }

    method SetUserNotes(notes: string)
      modifies this`userNotes
      ensures userNotes == notes
    {
      userNotes := notes;
    }

    /** Advances the cursor unless it is on the last step. */
    method NextStep()
      requires Valid()
      modifies this`currentStep
      ensures Valid()
      ensures currentStep == if old(currentStep) < |simulationSteps| - 1 then old(currentStep) + 1 else old(currentStep)
    {
      if currentStep < |simulationSteps| - 1 {
        currentStep := currentStep + 1;
      }
    }

    /** Moves the cursor back unless it is on the first step. */
    method PreviousStep()
      requires Valid()
      modifies this`currentStep
      ensures Valid()
      ensures currentStep == if old(currentStep) > 0 then old(currentStep) - 1 else old(currentStep)
    {
      if currentStep > 0 {
        currentStep := currentStep - 1;
      }
    }

    /** Back to the first step, no particles, paused; the steps, notes and
        speed stay. */
    method Reset()
      modifies this`currentStep, this`particles, this`isPlaying
      ensures Valid()
      ensures currentStep == 0 && particles == [] && !isPlaying
    {
      currentStep, particles, isPlaying := 0, [], false;
    }
  }

  /** After a tick every particle left is still on its wire, and each is a
      particle of before, moved by its speed times the rate. */
  lemma TickKeepsOnWire(ps: seq<Particle>, rate: real)
    ensures forall p :: p in Ticked(ps, rate) ==> p.progress <= 1.0
    ensures forall p :: p in Ticked(ps, rate) ==>
      exists i :: 0 <= i < |ps| && p == ps[i].(progress := ps[i].progress + ps[i].speed * rate)
  {
    forall p | p in Ticked(ps, rate)
      ensures exists i :: 0 <= i < |ps| && p == ps[i].(progress := ps[i].progress + ps[i].speed * rate)
    {
      var i :| 0 <= i < |ps| && Advanced(ps, rate)[i] == p;
    }
  }

  /** The tick keeps the order of the particles: ticking a concatenation
      ticks each part. */
  lemma TickKeepsOrder(a: seq<Particle>, b: seq<Particle>, rate: real)
    ensures Ticked(a + b, rate) == Ticked(a, rate) + Ticked(b, rate)
  {
    var l, r := Advanced(a + b, rate), Advanced(a, rate) + Advanced(b, rate);
    forall i | 0 <= i < |l|
      ensures l[i] == r[i]
    {
      if i < |a| {
        assert (a + b)[i] == a[i];
      } else {
        assert (a + b)[i] == b[i - |a|];
      }
    }
    assert l == r;
    FilterAppend(Advanced(a, rate), Advanced(b, rate), OnWire);
  }

  /** When no particle reaches past the end, the tick only moves them. */
  lemma TickDropsNone(ps: seq<Particle>, rate: real)
    requires forall i :: 0 <= i < |ps| ==> ps[i].progress + ps[i].speed * rate <= 1.0
    ensures Ticked(ps, rate) == Advanced(ps, rate)
  {
    FilterAll(Advanced(ps, rate), OnWire);
  }
}

/** Properties of the learning store beyond single calls. */
module LearningStoreProps {
  import opened LearningStore

  /** Stepping forward and back from below the last step returns to the
      same step. */
  method NextThenPrevious(s: Store)
    requires s.Valid() && s.currentStep < |s.simulationSteps| - 1
    modifies s
    ensures s.Valid() && s.currentStep == old(s.currentStep)
  {
    s.NextStep();
    s.PreviousStep();
  }

  /** With no steps loaded the cursor cannot leave 0. */
  method NoStepsNoMove(s: Store, step: int)
    requires s.Valid() && s.simulationSteps == []
    modifies s
    ensures s.currentStep == 0
  {
    s.NextStep();
    s.PreviousStep();
    s.SetCurrentStep(step);
  }
}
