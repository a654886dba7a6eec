/** Connection genes decoded into edges of the neural graph (src/components/conn.rs). */
module Connections {
  import opened Genes

  /** Sizes of the three node partitions: inputs first, then hidden nodes, then outputs. */
  datatype NsShape = NsShape(input: nat, hidden: nat, output: nat)
  {
    function NNeurons(): nat { input + hidden + output }
  }

  datatype ConnectionType = Internal | In | Out | InOut

  predicate SensorIn(t: ConnectionType) { t == In || t == InOut }
  predicate SensorOut(t: ConnectionType) { t == Out || t == InOut }

  /** The type named by the two sensor flags. */
  function FromSensors(sensorIn: bool, sensorOut: bool): (t: ConnectionType)
    ensures t == InOut <==> sensorIn && sensorOut
    ensures t == In <==> sensorIn && !sensorOut
    ensures t == Out <==> !sensorIn && sensorOut
    ensures t == Internal <==> !sensorIn && !sensorOut
  {
    if sensorIn && sensorOut then InOut
    else if sensorIn then In
    else if sensorOut then Out
    else Internal
  }

  /** The flags can be read back from the type. */
  lemma FromSensorsRoundTrip(sensorIn: bool, sensorOut: bool)
    ensures SensorIn(FromSensors(sensorIn, sensorOut)) == sensorIn
    ensures SensorOut(FromSensors(sensorIn, sensorOut)) == sensorOut
  {
  }

  datatype Connection = Connection(w: real, connType: ConnectionType, inIndex: nat, outIndex: nat)

  /** A sensor-side input index stays; a hidden one moves past the inputs. */
  function RenumberInIndex(index: nat, condition: bool, offset: nat): (r: nat)
    ensures r - index == (if condition then 0 else offset)
  {
    if condition then index else index + offset
  }

  /** An output-sensor index moves past inputs and hidden nodes; a hidden one past the inputs only. */
  function RenumberOutIndex(index: nat, condition: bool, offset1: nat, offset2: nat): (r: nat)
    ensures r - index == (if condition then offset2 else offset1)
  {
    if condition then index + offset2 else index + offset1
  }

  /** Maps partition-local indices to global node indices. */
  function Renumber(c: Connection, shape: NsShape): (r: Connection)
    ensures r.w == c.w && r.connType == c.connType
    ensures r.inIndex == (if SensorIn(c.connType) then c.inIndex else c.inIndex + shape.input)
    ensures r.outIndex == (if SensorOut(c.connType) then c.outIndex + shape.input + shape.hidden
                           else c.outIndex + shape.input)
  {
    Connection(c.w,
               c.connType,
               RenumberInIndex(c.inIndex, c.connType == In || c.connType == InOut, shape.input),
               RenumberOutIndex(c.outIndex, c.connType == Out || c.connType == InOut,
                                shape.input, shape.input + shape.hidden))
  }

  /** The partition sizes a gene divides by: inputs or hidden nodes for its source,
      outputs or hidden nodes for its target. A zero one among them panics in the source. */
  predicate Decodable(g: Gene, shape: NsShape) {
    && (if InType(g) == 1 then shape.input > 0 else shape.hidden > 0)
    && (if OutType(g) == 1 then shape.output > 0 else shape.hidden > 0)
  }

  /** Decodes a gene: raw indices folded into their partition, then renumbered to global indices.
      The weight accessor is a parameter, as its body is not part of this model. */
  function FromGene(g: Gene, shape: NsShape, connWeight: Gene -> real): (c: Connection)
    requires Decodable(g, shape)
    ensures c.w == connWeight(g)
    ensures c.connType == FromSensors(InType(g) == 1, OutType(g) == 1)
    ensures SensorIn(c.connType) ==> c.inIndex < shape.input
    ensures !SensorIn(c.connType) ==> shape.input <= c.inIndex < shape.input + shape.hidden
    ensures SensorOut(c.connType) ==> shape.input + shape.hidden <= c.outIndex < shape.NNeurons()
    ensures !SensorOut(c.connType) ==> shape.input <= c.outIndex < shape.input + shape.hidden
  {
    var sensorIn := InType(g) == 1;
    var sensorOut := OutType(g) == 1;
    var inIndex := InIndex(g) % if sensorIn then shape.input else shape.hidden;
    var outIndex := OutIndex(g) % if sensorOut then shape.output else shape.hidden;
    Renumber(Connection(connWeight(g), FromSensors(sensorIn, sensorOut), inIndex, outIndex), shape)
  }

  /** Only bits 29 and 30 decide the type of the decoded connection. */
  lemma FromGeneTypeFromTypeBits(g1: Gene, g2: Gene, shape: NsShape, connWeight: Gene -> real)
    requires Decodable(g1, shape) && Decodable(g2, shape)
    requires InTypeBit(g1) == InTypeBit(g2) && OutTypeBit(g1) == OutTypeBit(g2)
    ensures FromGene(g1, shape, connWeight).connType == FromGene(g2, shape, connWeight).connType
  {
  }

  /** A decoded edge never starts at an output and never ends at an input. */
  lemma FromGeneDirection(g: Gene, shape: NsShape, connWeight: Gene -> real)
    requires Decodable(g, shape)
    ensures var c := FromGene(g, shape, connWeight);
      c.inIndex < shape.input + shape.hidden && shape.input <= c.outIndex < shape.NNeurons()
  {
  }

  /** The decoding test with shape (2, 1, 1): two input-sensor genes and one output-sensor gene. */
  lemma FromGeneTestVector(connWeight: Gene -> real)
    ensures var shape := NsShape(2, 1, 1);
      && Decodable(0x4000_0683, shape) && Decodable(0x4040_0683, shape) && Decodable(0x2000_0683, shape)
      && FromGene(0x4000_0683, shape, connWeight).connType == In
      && FromGene(0x4040_0683, shape, connWeight).connType == In
      && FromGene(0x2000_0683, shape, connWeight).connType == Out
      && FromGene(0x4000_0683, shape, connWeight).inIndex == 0 && FromGene(0x4000_0683, shape, connWeight).outIndex == 2
      && FromGene(0x4040_0683, shape, connWeight).inIndex == 1 && FromGene(0x4040_0683, shape, connWeight).outIndex == 2
      && FromGene(0x2000_0683, shape, connWeight).inIndex == 2 && FromGene(0x2000_0683, shape, connWeight).outIndex == 3
  {
    assert InType(0x4000_0683) == 1 && OutType(0x4000_0683) == 0;
    assert InType(0x4040_0683) == 1 && OutType(0x4040_0683) == 0;
    assert InType(0x2000_0683) == 0 && OutType(0x2000_0683) == 1;
    assert InIndex(0x4000_0683) == 0 && OutIndex(0x4000_0683) == 0;
    assert InIndex(0x4040_0683) == 1 && OutIndex(0x4040_0683) == 0;
    assert InIndex(0x2000_0683) == 0 && OutIndex(0x2000_0683) == 0;
  }
}
