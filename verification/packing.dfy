/**
  The three control-word packers of the ITA driver header (`ITA_TILES`,
  `ITA_LAYER`, `ITA_FLAGS`) and the layer/activation selectors, together
  with the decoders that undo them.
 */
module Packing {
  import opened Words

  /** Layer selector; the code of each layer is given by `LayerCode`. */
  datatype LayerType = Attention | Feedforward | Linear

  /** Activation selector; the code of each activation is given by `ActivationCode`. */
  datatype ActivationType = Identity | Gelu | Relu

  function LayerCode(l: LayerType): bv32
  {
    match l
    case Attention => 0
    case Feedforward => 1
    case Linear => 2
  }

  function ActivationCode(a: ActivationType): bv32
  {
    match a
    case Identity => 0
    case Gelu => 1
    case Relu => 2
  }

  /** The layer whose code is `c`, if any. */
  function LayerOfCode(c: bv32): (r: Option<LayerType>)
    ensures r.Some? ==> LayerCode(r.value) == c
    ensures r.None? <==> c > 2
  {
    if c == 0 then Some(Attention)
    else if c == 1 then Some(Feedforward)
    else if c == 2 then Some(Linear)
    else None
  }

  /** The activation whose code is `c`, if any. */
  function ActivationOfCode(c: bv32): (r: Option<ActivationType>)
    ensures r.Some? ==> ActivationCode(r.value) == c
    ensures r.None? <==> c > 2
  {
    if c == 0 then Some(Identity)
    else if c == 1 then Some(Gelu)
    else if c == 2 then Some(Relu)
    else None
  }

  // ---------------------------------------------------------------------
  // Tile shape: sequence tiles in bits 0-3, embedding tiles in bits 4-7,
  // projection tiles in bits 8 and up.
  // ---------------------------------------------------------------------

  datatype TileShape = TileShape(seqTiles: bv32, embTiles: bv32, projTiles: bv32)

  /** The field widths the tile word leaves to each count. */
  predicate ValidTiles(t: TileShape)
  {
    t.seqTiles < 16 && t.embTiles < 16 && t.projTiles < 0x100_0000
  }

  /** `ITA_TILES(s, e, p)`, with every argument parenthesised. */
  function PackTiles(s: bv32, e: bv32, p: bv32): (w: bv32)
    ensures ValidTiles(TileShape(s, e, p)) ==>
              w & 0xF == s && (w >> 4) & 0xF == e && w >> 8 == p
  {
    s | (e << 4) | (p << 8)
  }

  /** Splits a tile word into its three fields. */
  function UnpackTiles(w: bv32): (t: TileShape)
    ensures ValidTiles(t)
    ensures PackTiles(t.seqTiles, t.embTiles, t.projTiles) == w
  {
    TileShape(w & 0xF, (w >> 4) & 0xF, w >> 8)
  }

  /** Packing then unpacking a shape whose fields fit returns the shape. */
  lemma TilesRoundTrip(t: TileShape)
    requires ValidTiles(t)
    ensures UnpackTiles(PackTiles(t.seqTiles, t.embTiles, t.projTiles)) == t
  {
  }

  // ---------------------------------------------------------------------
  // Layer word: layer code in bits 0-1, activation code in bits 2-3.
  // ---------------------------------------------------------------------

  /** `ITA_LAYER(layer, activation)` on raw codes. */
  function LayerWord(layer: bv32, activation: bv32): (w: bv32)
    ensures layer < 4 && activation < 4 ==>
              w < 16 && w & 3 == layer && (w >> 2) & 3 == activation
  {
    layer | (activation << 2)
  }

  /** `ITA_LAYER` applied to the enumerated selectors. */
  function PackLayer(l: LayerType, a: ActivationType): (w: bv32)
    ensures w < 16
    ensures w & 3 == LayerCode(l) && w >> 2 == ActivationCode(a)
  {
    LayerWord(LayerCode(l), ActivationCode(a))
  }

  /** The selectors a layer word encodes, or None when it encodes none. */
  function UnpackLayer(w: bv32): (r: Option<(LayerType, ActivationType)>)
    ensures r.Some? ==> PackLayer(r.value.0, r.value.1) == w
    ensures r.None? ==> forall l, a :: PackLayer(l, a) != w
  {
    if w >= 16 then None
    else
      match (LayerOfCode(w & 3), ActivationOfCode(w >> 2))
      case (Some(l), Some(a)) => Some((l, a))
      case _ => None
  }

  /** Unpacking a packed layer word returns the selectors it was built from. */
  lemma LayerRoundTrip(l: LayerType, a: ActivationType)
    ensures UnpackLayer(PackLayer(l, a)) == Some((l, a))
  {
  }

  // ---------------------------------------------------------------------
  // Stream flags: one bit each, at positions 0..4 in argument order.
  // ---------------------------------------------------------------------

  datatype Flags = Flags(weightPreload: bool, weightNextload: bool, biasDisable: bool,
                         biasDirection: bool, outputDisable: bool)

  function Bit(b: bool): bv32
  {
    if b then 1 else 0
  }

  /** `ITA_FLAGS(...)` on raw arguments, which the caller must keep to 0 or 1. */
  function FlagsWord(weightPreload: bv32, weightNextload: bv32, biasDisable: bv32,
                     biasDirection: bv32, outputDisable: bv32): (w: bv32)
    ensures weightPreload < 2 && weightNextload < 2 && biasDisable < 2 &&
            biasDirection < 2 && outputDisable < 2 ==>
              && w < 32
              && w & 1 == weightPreload
              && (w >> 1) & 1 == weightNextload
              && (w >> 2) & 1 == biasDisable
              && (w >> 3) & 1 == biasDirection
              && (w >> 4) & 1 == outputDisable
  {
    weightPreload | (weightNextload << 1) | (biasDisable << 2) |
    (biasDirection << 3) | (outputDisable << 4)
  }

  function PackFlags(f: Flags): (w: bv32)
    ensures w < 32
  {
    FlagsWord(Bit(f.weightPreload), Bit(f.weightNextload), Bit(f.biasDisable),
              Bit(f.biasDirection), Bit(f.outputDisable))
  }

  /** The flag set a flags word encodes, or None when bits above bit 4 are set. */
  function UnpackFlags(w: bv32): (r: Option<Flags>)
    ensures r.Some? ==> PackFlags(r.value) == w
    ensures r.None? <==> w >= 32
  {
    if w >= 32 then None
    else Some(Flags(w & 1 == 1, (w >> 1) & 1 == 1, (w >> 2) & 1 == 1,
                    (w >> 3) & 1 == 1, (w >> 4) & 1 == 1))
  }

  /** Unpacking a packed flag set returns it. */
  lemma FlagsRoundTrip(f: Flags)
    ensures UnpackFlags(PackFlags(f)) == Some(f)
  {
  }
}
