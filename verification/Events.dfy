/** The closures that the components put into the event queue, as data. */
module Events {
  import opened Base
  import opened Scheduling

  datatype Event =
    | AudioTick
    | TextureBlock(at: Time, burstEnd: Time, period: pos)
    | WeightIssue(npc: nat, size: nat)
    | PredictorTick
    | QuantumDone(p: Pending)
}
