/** Look-ups in the miner configuration (a parsed TOML document): which group a
    sender belongs to, its display name, its colour, and whether it is known or tracked. */
module MinerConfig {
  import opened Common

  const DefaultColor: string := "white"
  const OtherGroup: string := "Other"

  /** One entry of the `miners` table; both keys are optional in the document. */
  datatype MinerInfo = MinerInfo(name: Option<string>, group: Option<string>)

  /** One entry of the `groups` table. */
  datatype GroupInfo = GroupInfo(color: Option<string>)

  /** The parts of the configuration the look-ups read. A missing `miners` or
      `groups` table behaves as an empty one. */
  datatype Config = Config(
    miners: map<string, MinerInfo>,
    groups: map<string, GroupInfo>,
    trackedGroup: Option<string>)

  /** Python truthiness of an optional string: None and "" are false. */
  predicate Truthy(s: Option<string>) {
    s.Some? && s.value != ""
  }

  /** is_miner_known: the sender has an entry in the `miners` table. */
  function IsKnown(cfg: Config, id: string): (r: bool)
    ensures r <==> id in cfg.miners
  {
    id in cfg.miners
  }

  /** is_miner_tracked: a non-empty tracked group is configured and the sender's
      entry names exactly that group. */
  function IsTracked(cfg: Config, id: string): (r: bool)
    ensures r ==> IsKnown(cfg, id)
    ensures r <==> Truthy(cfg.trackedGroup) && id in cfg.miners
                   && cfg.miners[id].group == cfg.trackedGroup
  {
    if !Truthy(cfg.trackedGroup) then false
    else if id in cfg.miners && cfg.miners[id].group == cfg.trackedGroup then true
    else false
  }

  /** get_miner_color: the colour of the sender's group, falling back to the
      default colour when the sender, its group name or the group entry is missing. */
  function Color(cfg: Config, id: string): (r: string)
    ensures id !in cfg.miners ==> r == DefaultColor
    ensures id in cfg.miners && !Truthy(cfg.miners[id].group) ==> r == DefaultColor
    ensures r != DefaultColor ==>
              && id in cfg.miners && Truthy(cfg.miners[id].group)
              && cfg.miners[id].group.value in cfg.groups
              && cfg.groups[cfg.miners[id].group.value].color == Some(r)
    ensures id in cfg.miners && Truthy(cfg.miners[id].group) && cfg.miners[id].group.value in cfg.groups
            && cfg.groups[cfg.miners[id].group.value].color.Some?
            ==> r == cfg.groups[cfg.miners[id].group.value].color.value
  {
    if id !in cfg.miners || !Truthy(cfg.miners[id].group) then DefaultColor
    else
      var g := cfg.miners[id].group.value;
      if g !in cfg.groups then DefaultColor
      else match cfg.groups[g].color
        case Some(c) => c
        case None => DefaultColor
  }

  /** get_miner_name: the configured name, or the first eight characters of the
      sender's address. */
  function Name(cfg: Config, id: string): (r: string)
    ensures id in cfg.miners && cfg.miners[id].name.Some? ==> r == cfg.miners[id].name.value
    ensures !(id in cfg.miners && cfg.miners[id].name.Some?) ==> r == Prefix8(id)
  {
    if id in cfg.miners then
      match cfg.miners[id].name
      case Some(n) => n
      case None => Prefix8(id)
    else Prefix8(id)
  }

  /** get_miner_group: the configured group, or "Other". */
  function Group(cfg: Config, id: string): (r: string)
    ensures id in cfg.miners && cfg.miners[id].group.Some? ==> r == cfg.miners[id].group.value
    ensures !(id in cfg.miners && cfg.miners[id].group.Some?) ==> r == OtherGroup
  {
    if id in cfg.miners then
      match cfg.miners[id].group
      case Some(g) => g
      case None => OtherGroup
    else OtherGroup
  }

  /** A sender missing from the configuration is neither known nor tracked, falls
      into the "Other" group, is named by its address prefix and drawn in the
      default colour. */
  lemma UnknownMiner(cfg: Config, id: string)
    requires id !in cfg.miners
    ensures !IsKnown(cfg, id) && !IsTracked(cfg, id)
    ensures Group(cfg, id) == OtherGroup && Name(cfg, id) == Prefix8(id) && Color(cfg, id) == DefaultColor
  {
  }

  /** A tracked miner is always classified into the tracked group. */
  lemma TrackedInTrackedGroup(cfg: Config, id: string)
    requires IsTracked(cfg, id)
    ensures Group(cfg, id) == cfg.trackedGroup.value
  {
  }
}
