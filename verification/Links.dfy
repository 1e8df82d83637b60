/** The connections of a bus: TCP links between nodes (or a client and a node) and their ends. */
module Links {
  import opened Graphs

  type NodeId = int

  /** A TCP connection that `a` established to `b`. */
  type Link = Edge<nat>

  /** One end of a link: the `Connection` object of the establisher (`up`, in its upstream
      list) or of the acceptor (in its downstream list). */
  datatype Conn = Conn(link: Link, up: bool) {
    function Node(): NodeId {
      if up then link.a else link.b
    }

    function Peer(): Conn {
      Conn(link, !up)
    }
  }
}
