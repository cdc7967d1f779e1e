/** A node of a production chain: one item, the way it is sourced, and the
    ordered list of the materials one production run of it consumes. Nodes
    are objects because the command layer edits them in place through the
    references it holds. */
module Model {

  /** How a node is sourced: bought at its market price, or manufactured
      from its own materials. */
  datatype Kind = Buy | Manufacture

  /** Every field of a node at one moment, so that a contract can say that
      an edit changed one field and no other. */
  datatype NodeState = NodeState(
    kind: Kind,
    typeId: int,
    quantity: int,
    batchSize: int,
    materialEfficiency: real,
    marketPrice: real,
    marketRegionId: int,
    materials: seq<Product>)

  class Product {
    var kind: Kind
    var typeId: int
    /** Units of this item needed per production run of the parent. */
    var quantity: int
    /** Units of this item one production run yields. */
    var batchSize: int
    var materialEfficiency: real
    var marketPrice: real
    var marketRegionId: int
    var materials: seq<Product>

    /** A snapshot of every field of the node. */
    function State(): NodeState
      reads this
    {
      NodeState(kind, typeId, quantity, batchSize, materialEfficiency,
                marketPrice, marketRegionId, materials)
    }
  }

  /** The root and its direct materials are pairwise different objects, as
      they are in a chain built from a bill of materials. */
  ghost predicate Distinct(p: Product)
    reads p
  {
    && p !in p.materials
    && forall i, j :: 0 <= i < j < |p.materials| ==> p.materials[i] != p.materials[j]
  }
}
