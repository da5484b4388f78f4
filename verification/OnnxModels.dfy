/** The mutable model object that the surgery scripts edit in place. */
module OnnxModels {
  import opened Graphs

  datatype ElemType = FloatType | Int64Type

  datatype Input = Input(name: Name, elem: ElemType)

  class Model {
    var inputs: seq<Input>
    var inits: Env
    var nodes: seq<Node>

    constructor (inputs: seq<Input>, inits: Env, nodes: seq<Node>)
      ensures this.inputs == inputs && this.inits == inits && this.nodes == nodes
    {
      this.inputs, this.inits, this.nodes := inputs, inits, nodes;
    }
  }
}
