/** The grapple gun's state record (`ShipGrappleGunComponent`): seven
    configuration fields with their defaults and the two tether fields that the
    grapple system sets and clears. */
module GunComponent {
  import opened Base

  /** The configuration part of the record, as a value. */
  datatype GunConfig = GunConfig(
    reelRate: real,
    minLength: real,
    slack: real,
    stiffness: real,
    gridSeparationPadding: real,
    cutDelay: real,
    cutQuality: string)

  /** The whole record, as a value: configuration plus the tether fields. */
  datatype GunState = GunState(config: GunConfig, jointId: Option<string>, targetGrid: Option<Uid>)
  {
    /** True when the record names a tether (both fields set). */
    predicate Tethered() {
      jointId.Some? && targetGrid.Some?
    }

    /** The record with both tether fields cleared, configuration kept. */
    function Untethered(): (g: GunState)
      ensures g.config == config && g.jointId.None? && g.targetGrid.None?
    {
      GunState(config, None, None)
    }
  }

  /** Field defaults of a freshly created component. */
  const DefaultConfig: GunConfig := GunConfig(8.0, 5.0, 2.0, 1.0, 0.5, 1.0, "Slicing")

  class ShipGrappleGunComponent {
    var ReelRate: real
    var MinLength: real
    var Slack: real
    var Stiffness: real
    var GridSeparationPadding: real
    var CutDelay: real
    var CutQuality: string
    var JointId: Option<string>
    var TargetGrid: Option<Uid>

    /** A fresh component: defaults for the configuration, no tether. */
    constructor ()
      ensures ReelRate == 8.0 && MinLength == 5.0 && Slack == 2.0 && Stiffness == 1.0
      ensures GridSeparationPadding == 0.5 && CutDelay == 1.0 && CutQuality == "Slicing"
      ensures JointId == None && TargetGrid == None
      ensures Config() == DefaultConfig
      ensures State().jointId.None? == State().targetGrid.None?
    {
      ReelRate, MinLength, Slack, Stiffness := 8.0, 5.0, 2.0, 1.0;
      GridSeparationPadding, CutDelay, CutQuality := 0.5, 1.0, "Slicing";
      JointId, TargetGrid := None, None;
    }

    function Config(): GunConfig
      reads this
    {
      GunConfig(ReelRate, MinLength, Slack, Stiffness, GridSeparationPadding, CutDelay, CutQuality)
    }

    /** The record's current value. */
    function State(): GunState
      reads this
    {
      GunState(Config(), JointId, TargetGrid)
    }
  }
}
