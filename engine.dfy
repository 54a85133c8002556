/**
 * The jsbattle simulation engine as the two screens see it.
 *
 * The engine itself (physics, AI execution, rendering) is an external
 * collaborator: here it is only the state the screens read (the tank list and
 * the renderer quality), a log of the calls the screens make on it, and the
 * opaque AI definitions its factory builds.
 */
module Engine {

  /** A value owned by the engine that the screens copy without looking inside
      (a tank's debug data or its pose). */
  datatype EngineData = EngineData(fields: map<string, string>)

  /** One entry of the engine's `tankList`, read on every render tick. */
  datatype TankState = TankState(
    id: int,
    fullName: string,
    debugData: EngineData,
    state: EngineData,
    score: int,
    energy: real)

  /** One tank of the result the engine hands to `onFinish`; the screens read
      only its name and its remaining energy. */
  datatype TankSummary = TankSummary(name: string, energy: real)

  /** The result of a finished battle. */
  datatype BattleResult = BattleResult(tankList: seq<TankSummary>)

  /** The argument of `addTank`. */
  datatype TankDescriptor = TankDescriptor(name: string)

  /** A call a screen makes on the engine. */
  datatype EngineCall =
    | CallBuildSimulation
    | CallAddTank(descriptor: TankDescriptor)
    | CallStart

  /**
   * The engine instance behind the `Battlefield` component. Its tank list and
   * quality change as the simulation runs; `calls` records what the screen
   * asked of it, in order.
   */
  class Battlefield {
    var tankList: seq<TankState>
    var actualRendererQuality: real
    var calls: seq<EngineCall>

    constructor (tanks: seq<TankState>, quality: real)
      ensures tankList == tanks && actualRendererQuality == quality && calls == []
    {
      tankList := tanks;
      actualRendererQuality := quality;
      calls := [];
    }

    /** Prepares the simulation; it does not touch the tanks. */
    method BuildSimulation()
      modifies this
      ensures calls == old(calls) + [CallBuildSimulation]
      ensures tankList == old(tankList) && actualRendererQuality == old(actualRendererQuality)
    {
      calls := calls + [CallBuildSimulation];
    }

    /** Registers one participant. What the engine then holds in its tank list
        is the engine's business, so the contract leaves it open. */
    method AddTank(descriptor: TankDescriptor)
      modifies this
      ensures calls == old(calls) + [CallAddTank(descriptor)]
    {
      calls := calls + [CallAddTank(descriptor)];
    }

    /** Starts the simulation; its ticks arrive later, through `onRender`.
        As with `AddTank`, what the engine then holds is left open. */
    method Start()
      modifies this
      ensures calls == old(calls) + [CallStart]
    {
      calls := calls + [CallStart];
    }
  }

  /**
   * An AI definition as built by `JsBattle.createAiDefinition()` and then
   * configured by at most one of `fromFile(name)` or `fromCode(name, code)`.
   */
  datatype AiDefinition =
    | Unconfigured
    | FromFile(name: string)
    | FromCode(name: string, code: string)
}
