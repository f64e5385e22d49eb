/**
  The declarative cluster definition (the `cluster`, `frontend` and `node`
  blocks of the configuration document) and the provisioning log.
*/
module ClusterConfig {
  import opened Wrappers

  /** One entry of a role's `volumes` list. */
  datatype VolumeSpec = VolumeSpec(name: string, size: nat)

  /** A `frontend` or `node` block. `publicIp` is the optional `public-ip`. */
  datatype RoleSpec = RoleSpec(
    image: string,
    flavor: string,
    secKey: string,
    publicIp: Option<string>,
    volumes: seq<VolumeSpec>,
    groups: seq<string>,
    adminUser: string)

  /** The whole document: `network` may be the word `default`;
      `allowFrom` is `allow-traffic-from-sec-groups`. */
  datatype Config = Config(
    name: string,
    network: string,
    allowFrom: seq<string>,
    frontend: RoleSpec,
    node: RoleSpec)
}

/**
  The provisioning log: one entry per create or delete the tool performs in a
  session, and the pair of provider state and log that every provisioning
  step transforms.
*/
module Audit {
  import opened Provider

  /** The two actions the log records, `create` and `delete`. */
  datatype Action = Create | Delete

  /** The four resource types the log records: `vm`, `volume`, `sec-group`
      and `server-group`. */
  datatype Resource = VmResource | VolumeResource | SecGroupResource | ServerGroupResource

  /** An entry: action, resource type, the provider's id and a label. */
  datatype LogEntry = LogEntry(action: Action, resourceType: Resource, resourceId: nat, info: string)

  /** The provider's state together with the session's log. */
  datatype Effect = Effect(cloud: CloudState, log: seq<LogEntry>)

  /** `e` with one entry appended to the log. */
  function Logged(e: Effect, action: Action, resourceType: Resource, id: nat, info: string): Effect
  {
    e.(log := e.log + [LogEntry(action, resourceType, id, info)])
  }
}
