/**
 * A cluster member as the gossip layer reports it (`memberlist.Node`): its name, its address
 * in printed form and its role metadata. Both node roles advertise their role in the metadata.
 */
module Membership {

  datatype Node = Node(name: string, addr: string, meta: string)

  /** The JSON around a role label: `{"label":"` and `"}`. */
  const LabelOpen := "{\"label\":\""
  const LabelClose := "\"}"

  /** The metadata a worker advertises, `{"label":"worker"}` (worker/cmd/main.go:45). */
  const WorkerMeta := LabelOpen + "worker" + LabelClose

  /** The metadata a gateway advertises, `{"label":"gateway"}` (gateway/internal/cluster.go:34). */
  const GatewayMeta := LabelOpen + "gateway" + LabelClose
}
