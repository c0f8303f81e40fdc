/**
  Converting whole checkpoints between HF and NeMo (mcore layout), for the Llama and the Qwen converters.
  A tensor is the sequence of its slices along the first dimension; casting and loading are the identity.

  A state dict maps names to tensors.  What it holds is described by a function from parameter keys to
  tensors, of which the state dict is the rendering under a naming scheme.
*/
module Checkpoints {
  import opened Wrappers
  import opened QkvLayout
  import opened CheckpointNames

  datatype Slice = Slice(values: seq<real>)
  type Tensor = seq<Slice>
  type StateDict = map<string, Tensor>

  /** Qwen adds the three attention biases. */
  datatype Family = Llama | Qwen

  datatype Config = Config(family: Family, layers: nat, shape: Shape, ffn: nat, ampO2: bool)

  /** `d` holds exactly the parameters `keys`, each under its name. */
  ghost predicate Renders<K(!new)>(name: K -> string, keys: set<K>, tensor: K -> Tensor, d: StateDict) {
    && (forall k :: k in keys ==> name(k) in d && d[name(k)] == tensor(k))
    && (forall s :: s in d ==> exists k :: k in keys && s == name(k))
  }

  /** The checkpoint dictionary a converter fills; `tensor` says what belongs under each key. */
  class Checkpoint<K(!new,==)> {
    const name: K -> string
    ghost const tensor: K -> Tensor
    ghost var keys: set<K>
    var dict: StateDict

    ghost predicate Valid()
      reads this
    {
      Injective(name) && Renders(name, keys, tensor, dict)
    }

    constructor (name: K -> string, ghost tensor: K -> Tensor)
      requires Injective(name)
      ensures Valid() && this.name == name && this.tensor == tensor && keys == {}
    {
      this.name, this.tensor, keys, dict := name, tensor, {}, map[];
    }

    method Store(k: K, t: Tensor)
      requires Valid() && t == tensor(k)
      modifies this
      ensures Valid() && keys == old(keys) + {k}
    {
      forall s | s in dict
        ensures exists a :: a in keys + {k} && s == name(a)
      {
        var a :| a in keys && s == name(a);
        assert a in keys + {k};
      }
      keys := keys + {k};
      dict := dict[name(k) := t];
    }
  }

  // ---------------------------------------------------------------------------
  // The conversions, parameter by parameter
  // ---------------------------------------------------------------------------

  predicate IsBias(p: HfPart) {
    p.QBias? || p.KBias? || p.VBias?
  }

  predicate InHf(c: Config, k: HfKey) {
    k.HfLayer? ==> k.index < c.layers && (IsBias(k.part) ==> c.family.Qwen?)
  }

  predicate InNemo(c: Config, rotary: bool, k: NemoKey) {
    && (k.Rotary? ==> rotary)
    && (k.Layer? ==> k.index < c.layers && (k.part.QkvBias? ==> c.family.Qwen?))
  }

  function Pack(q: Tensor, k: Tensor, v: Tensor, s: Shape): Tensor {
    if Fits(q, k, v, s) then PackTensor(q, k, v, s) else []
  }

  function Unpack(packed: Tensor, s: Shape): Qkv<Slice> {
    if |packed| == s.Total() * s.size then UnpackTensor(packed, s) else Qkv([], [], [])
  }

  /** The tensor stored under a NeMo key, given the HF tensors. */
  function NemoTensor(c: Config, hf: HfKey -> Tensor, rotary: Tensor, k: NemoKey): Tensor {
    match k
    case Embed => hf(HfEmbed)
    case Rotary => rotary
    case FinalNorm => hf(HfNorm)
    case OutputLayer => hf(HfHead)
    case Layer(i, p) => NemoLayerTensor(c, hf, i, p)
  }

  function NemoLayerTensor(c: Config, hf: HfKey -> Tensor, i: nat, p: NemoPart): Tensor {
    match p
    case QkvWeight => Pack(hf(HfLayer(i, QWeight)), hf(HfLayer(i, KWeight)), hf(HfLayer(i, VWeight)), c.shape)
    case QkvBias => Pack(hf(HfLayer(i, QBias)), hf(HfLayer(i, KBias)), hf(HfLayer(i, VBias)), c.shape)
    case LinearProj => hf(HfLayer(i, OProj))
    case Fc1 => hf(HfLayer(i, GateProj)) + hf(HfLayer(i, UpProj))
    case Fc2 => hf(HfLayer(i, DownProj))
    case InputNorm => hf(HfLayer(i, HfInputNorm))
    case PostNorm => hf(HfLayer(i, HfPostNorm))
  }

  /** `t[:n]` and `t[n:]`. */
  function Head(t: Tensor, n: nat): Tensor {
    if n <= |t| then t[..n] else t
  }

  function Tail(t: Tensor, n: nat): Tensor {
    if n <= |t| then t[n..] else []
  }

  /** The tensor stored under an HF key, given the NeMo tensors. */
  function HfTensor(c: Config, nemo: NemoKey -> Tensor, k: HfKey): Tensor {
    match k
    case HfEmbed => nemo(Embed)
    case HfNorm => nemo(FinalNorm)
    case HfHead => nemo(OutputLayer)
    case HfLayer(i, p) => HfLayerTensor(c, nemo, i, p)
  }

  function HfLayerTensor(c: Config, nemo: NemoKey -> Tensor, i: nat, p: HfPart): Tensor {
    match p
    case QWeight => Unpack(nemo(Layer(i, QkvWeight)), c.shape).q
    case KWeight => Unpack(nemo(Layer(i, QkvWeight)), c.shape).k
    case VWeight => Unpack(nemo(Layer(i, QkvWeight)), c.shape).v
    case QBias => Unpack(nemo(Layer(i, QkvBias)), c.shape).q
    case KBias => Unpack(nemo(Layer(i, QkvBias)), c.shape).k
    case VBias => Unpack(nemo(Layer(i, QkvBias)), c.shape).v
    case OProj => nemo(Layer(i, LinearProj))
    case GateProj => Head(nemo(Layer(i, Fc1)), c.ffn)
    case UpProj => Tail(nemo(Layer(i, Fc1)), c.ffn)
    case DownProj => nemo(Layer(i, Fc2))
    case HfInputNorm => nemo(Layer(i, InputNorm))
    case HfPostNorm => nemo(Layer(i, PostNorm))
  }

  /** The sizes the HF converter's reshapes demand of layer `i`, and the configured width of the MLP. */
  predicate LayerFits(c: Config, hf: HfKey -> Tensor, i: nat) {
    && Fits(hf(HfLayer(i, QWeight)), hf(HfLayer(i, KWeight)), hf(HfLayer(i, VWeight)), c.shape)
    && (c.family.Qwen? ==> Fits(hf(HfLayer(i, QBias)), hf(HfLayer(i, KBias)), hf(HfLayer(i, VBias)), c.shape))
    && |hf(HfLayer(i, GateProj))| == c.ffn
  }

  lemma PackUnpacks(q: Tensor, k: Tensor, v: Tensor, s: Shape)
    requires Fits(q, k, v, s)
    ensures |Pack(q, k, v, s)| == s.Total() * s.size && Unpack(Pack(q, k, v, s), s) == Qkv(q, k, v)
  {
    UnpackPackTensor(q, k, v, s);
  }

  /** `nemo` holds the attention tensors of layer `i` of `hf` in the packed layout. */
  predicate ConvertsQkv(c: Config, hf: HfKey -> Tensor, nemo: NemoKey -> Tensor, i: nat) {
    && nemo(Layer(i, QkvWeight)) == Pack(hf(HfLayer(i, QWeight)), hf(HfLayer(i, KWeight)), hf(HfLayer(i, VWeight)), c.shape)
    && (c.family.Qwen? ==>
          nemo(Layer(i, QkvBias)) == Pack(hf(HfLayer(i, QBias)), hf(HfLayer(i, KBias)), hf(HfLayer(i, VBias)), c.shape))
  }

  /** ... and the other tensors too. */
  predicate ConvertsLayer(c: Config, hf: HfKey -> Tensor, nemo: NemoKey -> Tensor, i: nat) {
    ConvertsQkv(c, hf, nemo, i) && ConvertsRest(hf, nemo, i)
  }

  predicate ConvertsRest(hf: HfKey -> Tensor, nemo: NemoKey -> Tensor, i: nat) {
    && nemo(Layer(i, LinearProj)) == hf(HfLayer(i, OProj))
    && nemo(Layer(i, Fc1)) == hf(HfLayer(i, GateProj)) + hf(HfLayer(i, UpProj))
    && nemo(Layer(i, Fc2)) == hf(HfLayer(i, DownProj))
    && nemo(Layer(i, InputNorm)) == hf(HfLayer(i, HfInputNorm))
    && nemo(Layer(i, PostNorm)) == hf(HfLayer(i, HfPostNorm))
  }

  ghost predicate Converts(c: Config, hf: HfKey -> Tensor, rotary: Tensor, nemo: NemoKey -> Tensor) {
    && nemo(Embed) == hf(HfEmbed) && nemo(Rotary) == rotary
    && nemo(FinalNorm) == hf(HfNorm) && nemo(OutputLayer) == hf(HfHead)
    && forall i: nat :: ConvertsLayer(c, hf, nemo, i)
  }

  /** `hf` holds the attention tensors of layer `i` of `nemo`, unpacked. */
  predicate RestoresQkv(c: Config, nemo: NemoKey -> Tensor, hf: HfKey -> Tensor, i: nat) {
    && Qkv(hf(HfLayer(i, QWeight)), hf(HfLayer(i, KWeight)), hf(HfLayer(i, VWeight))) == Unpack(nemo(Layer(i, QkvWeight)), c.shape)
    && (c.family.Qwen? ==>
          Qkv(hf(HfLayer(i, QBias)), hf(HfLayer(i, KBias)), hf(HfLayer(i, VBias))) == Unpack(nemo(Layer(i, QkvBias)), c.shape))
  }

  /** ... and the other tensors too. */
  predicate RestoresLayer(c: Config, nemo: NemoKey -> Tensor, hf: HfKey -> Tensor, i: nat) {
    RestoresQkv(c, nemo, hf, i) && RestoresRest(c, nemo, hf, i)
  }

  predicate RestoresRest(c: Config, nemo: NemoKey -> Tensor, hf: HfKey -> Tensor, i: nat) {
    && hf(HfLayer(i, OProj)) == nemo(Layer(i, LinearProj))
    && hf(HfLayer(i, GateProj)) == Head(nemo(Layer(i, Fc1)), c.ffn)
    && hf(HfLayer(i, UpProj)) == Tail(nemo(Layer(i, Fc1)), c.ffn)
    && hf(HfLayer(i, DownProj)) == nemo(Layer(i, Fc2))
    && hf(HfLayer(i, HfInputNorm)) == nemo(Layer(i, InputNorm))
    && hf(HfLayer(i, HfPostNorm)) == nemo(Layer(i, PostNorm))
  }

  ghost predicate Restores(c: Config, nemo: NemoKey -> Tensor, hf: HfKey -> Tensor) {
    && hf(HfEmbed) == nemo(Embed) && hf(HfNorm) == nemo(FinalNorm) && hf(HfHead) == nemo(OutputLayer)
    && forall i: nat :: RestoresLayer(c, nemo, hf, i)
  }

  function NemoTensors(c: Config, hf: HfKey -> Tensor, rotary: Tensor): NemoKey -> Tensor {
    (k: NemoKey) => NemoTensor(c, hf, rotary, k)
  }

  lemma ConvertedQkv(c: Config, hf: HfKey -> Tensor, rotary: Tensor, i: nat)
    ensures ConvertsQkv(c, hf, NemoTensors(c, hf, rotary), i)
  {
  }

  lemma ConvertedRest(c: Config, hf: HfKey -> Tensor, rotary: Tensor, i: nat)
    ensures ConvertsRest(hf, NemoTensors(c, hf, rotary), i)
  {
  }

  lemma NemoTensorsConvert(c: Config, hf: HfKey -> Tensor, rotary: Tensor)
    ensures Converts(c, hf, rotary, NemoTensors(c, hf, rotary))
  {
    forall i: nat
      ensures ConvertsLayer(c, hf, NemoTensors(c, hf, rotary), i)
    {
      ConvertedQkv(c, hf, rotary, i);
      ConvertedRest(c, hf, rotary, i);
    }
  }

  function HfTensors(c: Config, nemo: NemoKey -> Tensor): HfKey -> Tensor {
    (k: HfKey) => HfTensor(c, nemo, k)
  }

  lemma RestoredQkv(c: Config, nemo: NemoKey -> Tensor, i: nat)
    ensures RestoresQkv(c, nemo, HfTensors(c, nemo), i)
  {
  }

  lemma RestoredRest(c: Config, nemo: NemoKey -> Tensor, i: nat)
    ensures RestoresRest(c, nemo, HfTensors(c, nemo), i)
  {
  }

  lemma HfTensorsRestore(c: Config, nemo: NemoKey -> Tensor)
    ensures Restores(c, nemo, HfTensors(c, nemo))
  {
    forall i: nat
      ensures RestoresLayer(c, nemo, HfTensors(c, nemo), i)
    {
      RestoredQkv(c, nemo, i);
      RestoredRest(c, nemo, i);
    }
  }

  /** HF to NeMo to HF gives back every parameter. */
  lemma LayerRoundTrip(c: Config, hf: HfKey -> Tensor, nemo: NemoKey -> Tensor, back: HfKey -> Tensor, i: nat, p: HfPart)
    requires LayerFits(c, hf, i) && ConvertsLayer(c, hf, nemo, i) && RestoresLayer(c, nemo, back, i)
    requires IsBias(p) ==> c.family.Qwen?
    ensures back(HfLayer(i, p)) == hf(HfLayer(i, p))
  {
    PackUnpacks(hf(HfLayer(i, QWeight)), hf(HfLayer(i, KWeight)), hf(HfLayer(i, VWeight)), c.shape);
    if c.family.Qwen? {
      PackUnpacks(hf(HfLayer(i, QBias)), hf(HfLayer(i, KBias)), hf(HfLayer(i, VBias)), c.shape);
    }
    var gate, up := hf(HfLayer(i, GateProj)), hf(HfLayer(i, UpProj));
    assert (gate + up)[..c.ffn] == gate && (gate + up)[c.ffn..] == up;
  }

  // ---------------------------------------------------------------------------
  // HF to NeMo
  // ---------------------------------------------------------------------------

  /** Looking names up in a state dict. */
  function Reading<K>(name: K -> string, d: StateDict): K -> Tensor {
    k => if name(k) in d then d[name(k)] else []
  }

  /** All parameters of the model are there, with the sizes that the converter demands. */
  ghost predicate HfReady(n: Naming, c: Config, hf: StateDict) {
    && 0 < c.shape.groups
    && (forall k :: InHf(c, k) ==> n.hf(k) in hf)
    && (forall i :: 0 <= i < c.layers ==> LayerFits(c, Reading(n.hf, hf), i))
  }

  function WithNemoAttention(keys: set<NemoKey>, i: nat, biased: bool): set<NemoKey> {
    var weights := keys + {Layer(i, QkvWeight)};
    if biased then weights + {Layer(i, QkvBias)} else weights
  }

  function WithNemoLayer(keys: set<NemoKey>, i: nat, biased: bool): set<NemoKey> {
    WithNemoAttention(keys, i, biased) +
    {Layer(i, LinearProj)} + {Layer(i, Fc1)} + {Layer(i, Fc2)} + {Layer(i, InputNorm)} + {Layer(i, PostNorm)}
  }

  /** The tensors of layer `i` are in `d`. */
  ghost predicate CarriesHfLayer(c: Config, name: HfKey -> string, hf: HfKey -> Tensor, d: StateDict, i: nat) {
    forall p :: (IsBias(p) ==> c.family.Qwen?) ==> name(HfLayer(i, p)) in d && d[name(HfLayer(i, p))] == hf(HfLayer(i, p))
  }

  /** The attention part of the loop body of the HF converter. */
  method ConvertQkv(name: HfKey -> string, c: Config, d: StateDict, ghost hf: HfKey -> Tensor, i: nat, checkpoint: Checkpoint<NemoKey>)
    requires 0 < c.shape.groups && LayerFits(c, hf, i) && CarriesHfLayer(c, name, hf, d, i)
    requires checkpoint.Valid() && ConvertsQkv(c, hf, checkpoint.tensor, i)
    modifies checkpoint
    ensures checkpoint.Valid()
    ensures checkpoint.keys == WithNemoAttention(old(checkpoint.keys), i, c.family.Qwen?)
  {
    var qkv := PackQkv(d[name(HfLayer(i, QWeight))], d[name(HfLayer(i, KWeight))], d[name(HfLayer(i, VWeight))], c.shape);
    checkpoint.Store(Layer(i, QkvWeight), qkv);
    if c.family.Qwen? {
      var bias := PackQkv(d[name(HfLayer(i, QBias))], d[name(HfLayer(i, KBias))], d[name(HfLayer(i, VBias))], c.shape);
      checkpoint.Store(Layer(i, QkvBias), bias);
    }
  }

  /** The loop body of the HF converter. */
  method ConvertLayer(name: HfKey -> string, c: Config, d: StateDict, ghost hf: HfKey -> Tensor, i: nat, checkpoint: Checkpoint<NemoKey>)
    requires 0 < c.shape.groups && LayerFits(c, hf, i) && CarriesHfLayer(c, name, hf, d, i)
    requires checkpoint.Valid() && ConvertsLayer(c, hf, checkpoint.tensor, i)
    modifies checkpoint
    ensures checkpoint.Valid()
    ensures checkpoint.keys == WithNemoLayer(old(checkpoint.keys), i, c.family.Qwen?)
  {
    var proj, gate, up := d[name(HfLayer(i, OProj))], d[name(HfLayer(i, GateProj))], d[name(HfLayer(i, UpProj))];
    var down, norm, postNorm := d[name(HfLayer(i, DownProj))], d[name(HfLayer(i, HfInputNorm))], d[name(HfLayer(i, HfPostNorm))];
    ConvertQkv(name, c, d, hf, i, checkpoint);
    checkpoint.Store(Layer(i, LinearProj), proj);
    checkpoint.Store(Layer(i, Fc1), gate + up);
    checkpoint.Store(Layer(i, Fc2), down);
    checkpoint.Store(Layer(i, InputNorm), norm);
    checkpoint.Store(Layer(i, PostNorm), postNorm);
  }

  /** The keys written before layer `i`. */
  ghost predicate NemoBefore(c: Config, rotary: bool, keys: set<NemoKey>, i: nat) {
    forall k: NemoKey :: k in keys <==>
      InNemo(c, rotary, k) && (k == Embed || k == Rotary || (k.Layer? && k.index < i))
  }

  lemma NemoBeforeNext(c: Config, rotary: bool, keys: set<NemoKey>, i: nat)
    requires NemoBefore(c, rotary, keys, i) && i < c.layers
    ensures NemoBefore(c, rotary, WithNemoLayer(keys, i, c.family.Qwen?), i + 1)
  {
    var keys' := WithNemoLayer(keys, i, c.family.Qwen?);
    forall k: NemoKey
      ensures k in keys' <==> InNemo(c, rotary, k) && (k == Embed || k == Rotary || (k.Layer? && k.index < i + 1))
    {
      if k.Layer? && k.index == i {
        match k.part
        case QkvWeight =>
        case QkvBias =>
        case LinearProj =>
        case Fc1 =>
        case Fc2 =>
        case InputNorm =>
        case PostNorm =>
      }
    }
  }

  lemma NemoComplete(c: Config, rotary: bool, keys: set<NemoKey>)
    requires NemoBefore(c, rotary, keys, c.layers)
    ensures forall k :: k in keys + {FinalNorm} + {OutputLayer} <==> InNemo(c, rotary, k)
  {
  }

  /** The loop over the layers. */
  method ConvertLayers(c: Config, name: HfKey -> string, d: StateDict, ghost hf: HfKey -> Tensor, ghost rotary: bool,
                       checkpoint: Checkpoint<NemoKey>)
    requires 0 < c.shape.groups
    requires forall i :: 0 <= i < c.layers ==> LayerFits(c, hf, i) && CarriesHfLayer(c, name, hf, d, i)
    requires checkpoint.Valid() && NemoBefore(c, rotary, checkpoint.keys, 0)
    requires forall i: nat :: ConvertsLayer(c, hf, checkpoint.tensor, i)
    modifies checkpoint
    ensures checkpoint.Valid() && NemoBefore(c, rotary, checkpoint.keys, c.layers)
  {
    for i := 0 to c.layers
      invariant checkpoint.Valid() && NemoBefore(c, rotary, checkpoint.keys, i)
    {
      assert LayerFits(c, hf, i) && CarriesHfLayer(c, name, hf, d, i) && ConvertsLayer(c, hf, checkpoint.tensor, i);
      NemoBeforeNext(c, rotary, checkpoint.keys, i);
      ConvertLayer(name, c, d, hf, i, checkpoint);
    }
  }

  /** Everything up to the renaming. */
  method FillNemo(n: Naming, c: Config, hf: StateDict, ghost tensor: NemoKey -> Tensor)
    returns (d: StateDict, ghost keys: set<NemoKey>)
    requires Injective(n.nemo) && HfReady(n, c, hf)
    requires Converts(c, Reading(n.hf, hf), if n.rotary in hf then hf[n.rotary] else [], tensor)
    ensures forall k :: k in keys <==> InNemo(c, n.rotary in hf, k)
    ensures Renders(n.nemo, keys, tensor, d)
  {
    var checkpoint := new Checkpoint<NemoKey>(n.nemo, tensor);
    checkpoint.Store(Embed, hf[n.hf(HfEmbed)]);
    if n.rotary in hf {
      checkpoint.Store(Rotary, hf[n.rotary]);
    }
    ConvertLayers(c, n.hf, hf, Reading(n.hf, hf), n.rotary in hf, checkpoint);
    NemoComplete(c, n.rotary in hf, checkpoint.keys);
    checkpoint.Store(FinalNorm, hf[n.hf(HfNorm)]);
    checkpoint.Store(OutputLayer, hf[n.hf(HfHead)]);
    d, keys := checkpoint.dict, checkpoint.keys;
  }

  method HfToNemo(n: Naming, c: Config, hf: StateDict, ghost tensor: NemoKey -> Tensor)
    returns (d: StateDict, ghost keys: set<NemoKey>)
    requires n.Proper() && HfReady(n, c, hf)
    requires Converts(c, Reading(n.hf, hf), if n.rotary in hf then hf[n.rotary] else [], tensor)
    ensures forall k :: k in keys <==> InNemo(c, n.rotary in hf, k)
    ensures Renders(if c.ampO2 then n.below else n.nemo, keys, tensor, d)
  {
    d, keys := FillNemo(n, c, hf, tensor);
    if c.ampO2 {
      var names := ListKeys(d);
      RenamesSafely(n, keys, tensor, d);
      var renamed := RenameKeys(n.rename, d, names);
      RenamedRenders(n, keys, tensor, d, renamed);
      d := renamed;
    }
  }

  // ---------------------------------------------------------------------------
  // The megatron_amp_O2 renaming loop
  // ---------------------------------------------------------------------------

  /** `keys` lists the keys of `d`, each once. */
  ghost predicate Enumerates(keys: seq<string>, d: StateDict) {
    && (forall i, j :: 0 <= i < j < |keys| ==> keys[i] != keys[j])
    && (forall k :: k in keys <==> k in d)
  }

  /** `list(d.keys())`; the order is left open. */
  method ListKeys(d: StateDict) returns (keys: seq<string>)
    ensures Enumerates(keys, d)
  {
    keys := [];
    var rest := d.Keys;
    while rest != {}
      invariant rest <= d.Keys
      invariant forall i, j :: 0 <= i < j < |keys| ==> keys[i] != keys[j]
      invariant forall k :: k in d <==> k in keys || k in rest
      invariant forall k :: k in keys ==> k !in rest
    {
      var key :| key in rest;
      keys := keys + [key];
      rest := rest - {key};
    }
  }

  /** No renamed key is another old key, and no two keys are renamed alike. */
  ghost predicate RenamesApart(rename: string -> string, keys: set<string>) {
    && (forall a :: a in keys && rename(a) in keys ==> rename(a) == a)
    && (forall a, b :: a in keys && b in keys && rename(a) == rename(b) ==> a == b)
  }

  /** `d` is `d0` with the keys `done` renamed and the others as they were: no tensor lost, none new. */
  ghost predicate Renamed(rename: string -> string, d0: StateDict, done: set<string>, d: StateDict)
    requires done <= d0.Keys
  {
    && (forall k :: k in done ==> rename(k) in d && d[rename(k)] == d0[k])
    && (forall k :: k in d0 && k !in done ==> k in d && d[k] == d0[k])
    && (forall s :: s in d ==> (s in d0 && s !in done) || exists k :: k in done && s == rename(k))
  }

  /** One entry moved to its new name. */
  function Moved(rename: string -> string, d: StateDict, key: string): StateDict
    requires key in d
  {
    (d - {key})[rename(key) := d[key]]
  }

  lemma RenameStep(rename: string -> string, d0: StateDict, done: set<string>, d: StateDict, key: string)
    requires done <= d0.Keys && RenamesApart(rename, d0.Keys) && Renamed(rename, d0, done, d) && key in d0 && key !in done
    ensures Renamed(rename, d0, done + {key}, Moved(rename, d, key))
  {
    RenameStepDone(rename, d0, done, d, key);
    RenameStepOrigins(rename, d0, done, d, key);
    forall k | k in d0 && k !in done + {key}
      ensures k in Moved(rename, d, key) && Moved(rename, d, key)[k] == d0[k]
    {
      assert k != rename(key);
    }
  }

  lemma RenameStepDone(rename: string -> string, d0: StateDict, done: set<string>, d: StateDict, key: string)
    requires done <= d0.Keys && RenamesApart(rename, d0.Keys) && Renamed(rename, d0, done, d) && key in d0 && key !in done
    ensures forall k :: k in done + {key} ==> rename(k) in Moved(rename, d, key) && Moved(rename, d, key)[rename(k)] == d0[k]
  {
    forall k | k in done + {key}
      ensures rename(k) in Moved(rename, d, key) && Moved(rename, d, key)[rename(k)] == d0[k]
    {
      if k != key {
        assert rename(k) != key && rename(k) != rename(key);
      }
    }
  }

  /** No new key comes from nowhere. */
  lemma RenameStepOrigins(rename: string -> string, d0: StateDict, done: set<string>, d: StateDict, key: string)
    requires done <= d0.Keys && Renamed(rename, d0, done, d) && key in d
    ensures forall s :: s in Moved(rename, d, key) ==>
      (s in d0 && s !in done + {key}) || exists k :: k in done + {key} && s == rename(k)
  {
    forall s | s in Moved(rename, d, key)
      ensures (s in d0 && s !in done + {key}) || exists k :: k in done + {key} && s == rename(k)
    {
      if s == rename(key) {
        assert key in done + {key};
      } else if k :| k in done && s == rename(k) {
        assert k in done + {key};
      }
    }
  }

  function KeysUpTo(keys: seq<string>, i: nat): set<string>
    requires i <= |keys|
  {
    set k | k in keys[..i]
  }

  lemma NextKey(keys: seq<string>, d: StateDict, i: nat)
    requires Enumerates(keys, d) && i < |keys|
    ensures keys[i] in d && keys[i] !in KeysUpTo(keys, i) && KeysUpTo(keys, i) <= d.Keys
    ensures KeysUpTo(keys, i + 1) == KeysUpTo(keys, i) + {keys[i]}
  {
    assert keys[..i + 1] == keys[..i] + [keys[i]];
  }

  lemma AllKeys(keys: seq<string>, d: StateDict)
    requires Enumerates(keys, d)
    ensures KeysUpTo(keys, |keys|) == d.Keys
  {
    assert keys[..|keys|] == keys;
  }

  /** The re-keying loop pops and re-inserts in place; no entry is lost or overwritten, whatever the order. */
  method RenameKeys(rename: string -> string, d0: StateDict, keys: seq<string>) returns (d: StateDict)
    requires Enumerates(keys, d0) && RenamesApart(rename, d0.Keys)
    ensures Renamed(rename, d0, d0.Keys, d)
  {
    d := d0;
    for i := 0 to |keys|
      invariant KeysUpTo(keys, i) <= d0.Keys && Renamed(rename, d0, KeysUpTo(keys, i), d)
    {
      NextKey(keys, d0, i);
      RenameStep(rename, d0, KeysUpTo(keys, i), d, keys[i]);
      d := Moved(rename, d, keys[i]);
    }
    AllKeys(keys, d0);
  }

  /** The loop is safe on every converted checkpoint ... */
  lemma RenamesSafely(n: Naming, keys: set<NemoKey>, tensor: NemoKey -> Tensor, d: StateDict)
    requires n.Proper() && Renders(n.nemo, keys, tensor, d)
    ensures RenamesApart(n.rename, d.Keys)
  {
    forall a | a in d
      ensures n.rename(a) !in d
    {
      var x :| x in keys && a == n.nemo(x);
      assert n.rename(a) == n.below(x);
      assert forall y :: y in keys ==> n.nemo(y) != n.rename(a);
    }
    forall a, b | a in d && b in d && n.rename(a) == n.rename(b)
      ensures a == b
    {
      var x :| x in keys && a == n.nemo(x);
      var y :| y in keys && b == n.nemo(y);
      assert n.rename(a) == n.below(x) && n.rename(b) == n.below(y);
    }
  }

  /** ... and puts the same tensors below the `module` base. */
  lemma RenamedRenders(n: Naming, keys: set<NemoKey>, tensor: NemoKey -> Tensor, d: StateDict, d': StateDict)
    requires n.Proper() && Renders(n.nemo, keys, tensor, d) && Renamed(n.rename, d, d.Keys, d')
    ensures Renders(n.below, keys, tensor, d')
  {
    forall k | k in keys
      ensures n.below(k) in d' && d'[n.below(k)] == tensor(k)
    {
      assert n.rename(n.nemo(k)) == n.below(k);
    }
    forall s | s in d'
      ensures exists k :: k in keys && s == n.below(k)
    {
      var before :| before in d && s == n.rename(before);
      var k :| k in keys && before == n.nemo(k);
      assert n.rename(n.nemo(k)) == n.below(k);
    }
  }

  // ---------------------------------------------------------------------------
  // NeMo to HF
  // ---------------------------------------------------------------------------

  /** `d` holds the parameters of the model (and possibly more). */
  ghost predicate Holds(c: Config, name: NemoKey -> string, nemo: NemoKey -> Tensor, d: StateDict) {
    forall k :: InNemo(c, false, k) ==> name(k) in d && d[name(k)] == nemo(k)
  }

  /** What the NeMo converter's reshapes and slices demand of layer `i`. */
  predicate NemoLayerFits(c: Config, nemo: NemoKey -> Tensor, i: nat) {
    && |nemo(Layer(i, QkvWeight))| == c.shape.Total() * c.shape.size
    && (c.family.Qwen? ==> |nemo(Layer(i, QkvBias))| == c.shape.Total() * c.shape.size)
    && c.ffn <= |nemo(Layer(i, Fc1))|
  }

  /** The tensors of layer `i` are in `d`. */
  ghost predicate CarriesLayer(c: Config, name: NemoKey -> string, nemo: NemoKey -> Tensor, d: StateDict, i: nat) {
    forall p: NemoPart :: (p.QkvBias? ==> c.family.Qwen?) ==> name(Layer(i, p)) in d && d[name(Layer(i, p))] == nemo(Layer(i, p))
  }

  function WithHfAttention(keys: set<HfKey>, i: nat, biased: bool): set<HfKey> {
    var weights := keys + {HfLayer(i, QWeight)} + {HfLayer(i, KWeight)} + {HfLayer(i, VWeight)};
    if biased then weights + {HfLayer(i, QBias)} + {HfLayer(i, KBias)} + {HfLayer(i, VBias)} else weights
  }

  function WithHfLayer(keys: set<HfKey>, i: nat, biased: bool): set<HfKey> {
    WithHfAttention(keys, i, biased) +
    {HfLayer(i, OProj)} + {HfLayer(i, GateProj)} + {HfLayer(i, UpProj)} + {HfLayer(i, DownProj)} +
    {HfLayer(i, HfInputNorm)} + {HfLayer(i, HfPostNorm)}
  }

  /** The attention part of the loop body of the NeMo converter. */
  method RestoreQkv(name: NemoKey -> string, c: Config, d: StateDict, ghost nemo: NemoKey -> Tensor, i: nat,
                    checkpoint: Checkpoint<HfKey>)
    requires CarriesLayer(c, name, nemo, d, i) && i < c.layers
    requires forall j :: 0 <= j < c.layers ==> NemoLayerFits(c, nemo, j)
    requires checkpoint.Valid() && forall j: nat :: RestoresLayer(c, nemo, checkpoint.tensor, j)
    modifies checkpoint
    ensures checkpoint.Valid()
    ensures checkpoint.keys == WithHfAttention(old(checkpoint.keys), i, c.family.Qwen?)
  {
    assert NemoLayerFits(c, nemo, i) && RestoresLayer(c, nemo, checkpoint.tensor, i);
    var weights := UnpackTensor(d[name(Layer(i, QkvWeight))], c.shape);
    checkpoint.Store(HfLayer(i, QWeight), weights.q);
    checkpoint.Store(HfLayer(i, KWeight), weights.k);
    checkpoint.Store(HfLayer(i, VWeight), weights.v);
    if c.family.Qwen? {
      var biases := UnpackTensor(d[name(Layer(i, QkvBias))], c.shape);
      checkpoint.Store(HfLayer(i, QBias), biases.q);
      checkpoint.Store(HfLayer(i, KBias), biases.k);
      checkpoint.Store(HfLayer(i, VBias), biases.v);
    }
  }

  /** The loop body of the NeMo converter. */
  method RestoreLayer(name: NemoKey -> string, c: Config, d: StateDict, ghost nemo: NemoKey -> Tensor, i: nat,
                      checkpoint: Checkpoint<HfKey>)
    requires CarriesLayer(c, name, nemo, d, i) && i < c.layers
    requires forall j :: 0 <= j < c.layers ==> NemoLayerFits(c, nemo, j)
    requires checkpoint.Valid() && forall j: nat :: RestoresLayer(c, nemo, checkpoint.tensor, j)
    modifies checkpoint
    ensures checkpoint.Valid()
    ensures checkpoint.keys == WithHfLayer(old(checkpoint.keys), i, c.family.Qwen?)
  {
    assert NemoLayerFits(c, nemo, i) && RestoresLayer(c, nemo, checkpoint.tensor, i);
    RestoreQkv(name, c, d, nemo, i, checkpoint);
    checkpoint.Store(HfLayer(i, OProj), d[name(Layer(i, LinearProj))]);
    checkpoint.Store(HfLayer(i, GateProj), Head(d[name(Layer(i, Fc1))], c.ffn));
    checkpoint.Store(HfLayer(i, UpProj), Tail(d[name(Layer(i, Fc1))], c.ffn));
    checkpoint.Store(HfLayer(i, DownProj), d[name(Layer(i, Fc2))]);
    checkpoint.Store(HfLayer(i, HfInputNorm), d[name(Layer(i, InputNorm))]);
    checkpoint.Store(HfLayer(i, HfPostNorm), d[name(Layer(i, PostNorm))]);
  }

  ghost predicate HfBefore(c: Config, keys: set<HfKey>, i: nat) {
    forall k: HfKey :: k in keys <==> InHf(c, k) && (k == HfEmbed || (k.HfLayer? && k.index < i))
  }

  lemma HfLayerKeys(c: Config, keys: set<HfKey>, i: nat, p: HfPart)
    requires HfBefore(c, keys, i) && i < c.layers
    ensures HfLayer(i, p) in WithHfLayer(keys, i, c.family.Qwen?) <==> (IsBias(p) ==> c.family.Qwen?)
  {
    assert HfLayer(i, p) !in keys;
  }

  lemma HfOtherKeys(keys: set<HfKey>, i: nat, biased: bool, k: HfKey)
    requires !(k.HfLayer? && k.index == i)
    ensures k in WithHfLayer(keys, i, biased) <==> k in keys
  {
  }

  lemma HfBeforeNext(c: Config, keys: set<HfKey>, i: nat)
    requires HfBefore(c, keys, i) && i < c.layers
    ensures HfBefore(c, WithHfLayer(keys, i, c.family.Qwen?), i + 1)
  {
    forall k: HfKey
      ensures (k in WithHfLayer(keys, i, c.family.Qwen?)
               <==> InHf(c, k) && (k == HfEmbed || (k.HfLayer? && k.index < i + 1)))
    {
      if k.HfLayer? && k.index == i {
        HfLayerKeys(c, keys, i, k.part);
      } else {
        HfOtherKeys(keys, i, c.family.Qwen?, k);
      }
    }
  }

  lemma HfComplete(c: Config, keys: set<HfKey>)
    requires HfBefore(c, keys, c.layers)
    ensures forall k :: k in keys + {HfNorm} + {HfHead} <==> InHf(c, k)
  {
  }

  /** The loop over the layers. */
  method RestoreLayers(c: Config, name: NemoKey -> string, d: StateDict, ghost nemo: NemoKey -> Tensor,
                       checkpoint: Checkpoint<HfKey>)
    requires checkpoint.Valid() && HfBefore(c, checkpoint.keys, 0)
    requires forall i: nat :: RestoresLayer(c, nemo, checkpoint.tensor, i)
    requires Holds(c, name, nemo, d)
    requires forall i :: 0 <= i < c.layers ==> NemoLayerFits(c, nemo, i)
    modifies checkpoint
    ensures checkpoint.Valid() && HfBefore(c, checkpoint.keys, c.layers)
  {
    for i := 0 to c.layers
      invariant checkpoint.Valid() && HfBefore(c, checkpoint.keys, i)
    {
      assert NemoLayerFits(c, nemo, i) && RestoresLayer(c, nemo, checkpoint.tensor, i);
      HfBeforeNext(c, checkpoint.keys, i);
      RestoreLayer(name, c, d, nemo, i, checkpoint);
    }
  }

  /** Everything after the base name is known. */
  method FillHf(n: Naming, c: Config, name: NemoKey -> string, d: StateDict, ghost nemo: NemoKey -> Tensor,
                ghost tensor: HfKey -> Tensor)
    returns (hf: StateDict, ghost keys: set<HfKey>)
    requires Injective(n.hf) && Restores(c, nemo, tensor)
    requires Holds(c, name, nemo, d)
    requires forall i :: 0 <= i < c.layers ==> NemoLayerFits(c, nemo, i)
    ensures (forall k :: k in keys <==> InHf(c, k)) && Renders(n.hf, keys, tensor, hf)
  {
    var checkpoint := new Checkpoint<HfKey>(n.hf, tensor);
    checkpoint.Store(HfEmbed, d[name(Embed)]);
    RestoreLayers(c, name, d, nemo, checkpoint);
    HfComplete(c, checkpoint.keys);
    checkpoint.Store(HfNorm, d[name(FinalNorm)]);
    checkpoint.Store(HfHead, d[name(OutputLayer)]);
    hf, keys := checkpoint.dict, checkpoint.keys;
  }

  /**
    The Llama converter looks for the embedding to find out the base name, the Qwen converter takes the
    plain one for granted; a missing embedding is the first lookup that raises.
  */
  method NemoToHf(n: Naming, c: Config, d: StateDict, ghost renamed: bool, ghost nemo: NemoKey -> Tensor,
                  ghost tensor: HfKey -> Tensor)
    returns (r: Result<StateDict, string>, ghost keys: set<HfKey>)
    requires n.Proper() && Holds(c, if renamed then n.below else n.nemo, nemo, d)
    requires renamed ==> n.nemo(Embed) !in d
    requires forall i :: 0 <= i < c.layers ==> NemoLayerFits(c, nemo, i)
    requires Restores(c, nemo, tensor)
    ensures r.Err? <==> c.family.Qwen? && renamed
    ensures r.Ok? ==> (forall k :: k in keys <==> InHf(c, k)) && Renders(n.hf, keys, tensor, r.value)
  {
    keys := {};
    assert InNemo(c, false, Embed);
    var name := n.nemo;
    if c.family.Llama? && n.nemo(Embed) !in d {
      name := n.below;
    }
    if name(Embed) !in d {
      r := Err("KeyError");
      return;
    }
    var hf;
    hf, keys := FillHf(n, c, name, d, nemo, tensor);
    r := Ok(hf);
  }

  // ---------------------------------------------------------------------------
  // The round trip
  // ---------------------------------------------------------------------------

  /** A converted layer is what the way back demands. */
  lemma ConvertedFits(c: Config, hf: HfKey -> Tensor, nemo: NemoKey -> Tensor, i: nat)
    requires LayerFits(c, hf, i) && ConvertsLayer(c, hf, nemo, i)
    ensures NemoLayerFits(c, nemo, i)
  {
    PackUnpacks(hf(HfLayer(i, QWeight)), hf(HfLayer(i, KWeight)), hf(HfLayer(i, VWeight)), c.shape);
    if c.family.Qwen? {
      PackUnpacks(hf(HfLayer(i, QBias)), hf(HfLayer(i, KBias)), hf(HfLayer(i, VBias)), c.shape);
    }
  }

  lemma ParamsRoundTrip(n: Naming, c: Config, hf: StateDict, nemo: NemoKey -> Tensor, back: HfKey -> Tensor)
    requires HfReady(n, c, hf) && Restores(c, nemo, back)
    requires Converts(c, Reading(n.hf, hf), if n.rotary in hf then hf[n.rotary] else [], nemo)
    ensures forall k :: InHf(c, k) ==> back(k) == hf[n.hf(k)]
  {
    var source := Reading(n.hf, hf);
    forall k | InHf(c, k)
      ensures back(k) == hf[n.hf(k)]
    {
      if k.HfLayer? {
        assert RestoresLayer(c, nemo, back, k.index) && ConvertsLayer(c, source, nemo, k.index);
        LayerRoundTrip(c, source, nemo, back, k.index, k.part);
      }
    }
  }

  /**
    HF to NeMo to HF is the identity on the names and tensors of the model (whatever else the checkpoint
    holds, such as the rotary table, is dropped), for any number of layers, with or without the renaming.
    The one combination that fails is Qwen with megatron_amp_O2, whose way back does not look below the
    renamed base.
  */
  method RoundTrip(c: Config, hf: StateDict) returns (r: Result<StateDict, string>)
    requires HfReady(NAMES, c, hf)
    ensures r.Err? <==> c.family.Qwen? && c.ampO2
    ensures r.Ok? ==>
      && (forall k :: InHf(c, k) ==> NAMES.hf(k) in r.value && r.value[NAMES.hf(k)] == hf[NAMES.hf(k)])
      && (forall s :: s in r.value ==> exists k :: InHf(c, k) && s == NAMES.hf(k))
  {
    NamesProper();
    r := RoundTripUnder(NAMES, c, hf);
  }

  method RoundTripUnder(n: Naming, c: Config, hf: StateDict) returns (r: Result<StateDict, string>)
    requires n.Proper() && HfReady(n, c, hf)
    ensures r.Err? <==> c.family.Qwen? && c.ampO2
    ensures r.Ok? ==>
      && (forall k :: InHf(c, k) ==> n.hf(k) in r.value && r.value[n.hf(k)] == hf[n.hf(k)])
      && (forall s :: s in r.value ==> exists k :: InHf(c, k) && s == n.hf(k))
  {
    ghost var source := Reading(n.hf, hf);
    ghost var nemo := NemoTensors(c, source, if n.rotary in hf then hf[n.rotary] else []);
    ghost var back := HfTensors(c, nemo);
    NemoTensorsConvert(c, source, if n.rotary in hf then hf[n.rotary] else []);
    HfTensorsRestore(c, nemo);
    ghost var held, keys;
    var d;
    d, held := HfToNemo(n, c, hf, nemo);
    forall i | 0 <= i < c.layers
      ensures NemoLayerFits(c, nemo, i)
    {
      ConvertedFits(c, source, nemo, i);
    }
    assert c.ampO2 ==> n.nemo(Embed) !in d;
    r, keys := NemoToHf(n, c, d, c.ampO2, nemo, back);
    ParamsRoundTrip(n, c, hf, nemo, back);
  }

  // ---------------------------------------------------------------------------
  // Entry by entry, under the names that the converters write
  // ---------------------------------------------------------------------------

  /** The same tensor under two names. */
  ghost predicate Same(hf: StateDict, hfName: string, nemo: StateDict, nemoName: string) {
    hfName in hf && nemoName in nemo && nemo[nemoName] == hf[hfName]
  }

  /** The gate rows are followed by the up rows. */
  ghost predicate Stacked(gate: string, up: string, ffn: nat, hf: StateDict, fc1: string, nemo: StateDict) {
    && gate in hf && up in hf && fc1 in nemo
    && nemo[fc1] == hf[gate] + hf[up] && |hf[gate]| == ffn
  }

  /** The three projections are interleaved head by head. */
  ghost predicate Mixed(q: string, k: string, v: string, s: Shape, hf: StateDict, qkv: string, nemo: StateDict) {
    q in hf && k in hf && v in hf && qkv in nemo && Interleaved(nemo[qkv], hf[q], hf[k], hf[v], s)
  }

  ghost predicate AttentionCorresponds(c: Config, hf: StateDict, nemo: StateDict, base: string, i: nat) {
    && Mixed(HfEntry(i, "self_attn.q_proj.weight"), HfEntry(i, "self_attn.k_proj.weight"), HfEntry(i, "self_attn.v_proj.weight"),
             c.shape, hf, NemoEntry(base, i, "self_attention.linear_qkv.weight"), nemo)
    && (c.family.Qwen? ==>
          Mixed(HfEntry(i, "self_attn.q_proj.bias"), HfEntry(i, "self_attn.k_proj.bias"), HfEntry(i, "self_attn.v_proj.bias"),
                c.shape, hf, NemoEntry(base, i, "self_attention.linear_qkv.bias"), nemo))
  }

  ghost predicate RestCorresponds(c: Config, hf: StateDict, nemo: StateDict, base: string, i: nat) {
    && Same(hf, HfEntry(i, "self_attn.o_proj.weight"), nemo, NemoEntry(base, i, "self_attention.linear_proj.weight"))
    && Stacked(HfEntry(i, "mlp.gate_proj.weight"), HfEntry(i, "mlp.up_proj.weight"), c.ffn,
               hf, NemoEntry(base, i, "mlp.linear_fc1.weight"), nemo)
    && Same(hf, HfEntry(i, "mlp.down_proj.weight"), nemo, NemoEntry(base, i, "mlp.linear_fc2.weight"))
    && Same(hf, HfEntry(i, "input_layernorm.weight"), nemo, NemoEntry(base, i, "self_attention.linear_qkv.layer_norm_weight"))
    && Same(hf, HfEntry(i, "post_attention_layernorm.weight"), nemo, NemoEntry(base, i, "mlp.linear_fc1.layer_norm_weight"))
  }

  /** The two state dicts hold the same model, the one in the HF layout, the other in the NeMo layout below `base`. */
  ghost predicate Corresponds(c: Config, hf: StateDict, nemo: StateDict, base: string) {
    && Same(hf, "model.embed_tokens.weight", nemo, base + "embedding.word_embeddings.weight")
    && Same(hf, "model.norm.weight", nemo, base + "decoder.final_layernorm.weight")
    && Same(hf, "lm_head.weight", nemo, base + "output_layer.weight")
    && forall i: nat :: i < c.layers ==> AttentionCorresponds(c, hf, nemo, base, i) && RestCorresponds(c, hf, nemo, base, i)
  }

  /** `hf` holds the parameters of the model (and possibly more). */
  ghost predicate HfHolds(c: Config, tensor: HfKey -> Tensor, hf: StateDict) {
    forall k :: InHf(c, k) ==> HfName(k) in hf && hf[HfName(k)] == tensor(k)
  }

  ghost predicate NemoHolds(c: Config, tensor: NemoKey -> Tensor, nemo: StateDict, base: string) {
    forall k :: InNemo(c, false, k) ==> NemoName(base, k) in nemo && nemo[NemoName(base, k)] == tensor(k)
  }

  lemma HfHeld(c: Config, tensor: HfKey -> Tensor, hf: StateDict, i: nat, p: HfPart)
    requires HfHolds(c, tensor, hf) && i < c.layers && (IsBias(p) ==> c.family.Qwen?)
    ensures HfName(HfLayer(i, p)) in hf && hf[HfName(HfLayer(i, p))] == tensor(HfLayer(i, p))
  {
    assert InHf(c, HfLayer(i, p));
  }

  lemma NemoHeld(c: Config, tensor: NemoKey -> Tensor, nemo: StateDict, base: string, i: nat, p: NemoPart)
    requires NemoHolds(c, tensor, nemo, base) && i < c.layers && (p.QkvBias? ==> c.family.Qwen?)
    ensures NemoName(base, Layer(i, p)) in nemo && nemo[NemoName(base, Layer(i, p))] == tensor(Layer(i, p))
  {
    assert InNemo(c, false, Layer(i, p));
  }

  /** One tensor that is only renamed. */
  lemma PartCorresponds(c: Config, hf: StateDict, hfTensor: HfKey -> Tensor, nemo: StateDict, tensor: NemoKey -> Tensor,
                        base: string, i: nat, p: HfPart, q: NemoPart)
    requires HfHolds(c, hfTensor, hf) && NemoHolds(c, tensor, nemo, base) && i < c.layers
    requires !IsBias(p) && !q.QkvBias? && tensor(Layer(i, q)) == hfTensor(HfLayer(i, p))
    ensures Same(hf, HfName(HfLayer(i, p)), nemo, NemoName(base, Layer(i, q)))
  {
    HfHeld(c, hfTensor, hf, i, p);
    NemoHeld(c, tensor, nemo, base, i, q);
  }

  lemma GateAndUpCorrespond(c: Config, hf: StateDict, hfTensor: HfKey -> Tensor, nemo: StateDict, tensor: NemoKey -> Tensor,
                            base: string, i: nat)
    requires HfHolds(c, hfTensor, hf) && NemoHolds(c, tensor, nemo, base) && i < c.layers
    requires LayerFits(c, hfTensor, i) && ConvertsRest(hfTensor, tensor, i)
    ensures Stacked(HfName(HfLayer(i, GateProj)), HfName(HfLayer(i, UpProj)), c.ffn, hf, NemoName(base, Layer(i, Fc1)), nemo)
  {
    HfHeld(c, hfTensor, hf, i, GateProj);
    HfHeld(c, hfTensor, hf, i, UpProj);
    NemoHeld(c, tensor, nemo, base, i, Fc1);
  }

  lemma ProjectionsCorrespond(c: Config, hf: StateDict, hfTensor: HfKey -> Tensor, nemo: StateDict, tensor: NemoKey -> Tensor,
                              base: string, i: nat, q: HfPart, k: HfPart, v: HfPart, qkv: NemoPart)
    requires HfHolds(c, hfTensor, hf) && NemoHolds(c, tensor, nemo, base) && i < c.layers
    requires (IsBias(q) || IsBias(k) || IsBias(v) || qkv.QkvBias?) ==> c.family.Qwen?
    requires Interleaved(tensor(Layer(i, qkv)), hfTensor(HfLayer(i, q)), hfTensor(HfLayer(i, k)), hfTensor(HfLayer(i, v)), c.shape)
    ensures Mixed(HfName(HfLayer(i, q)), HfName(HfLayer(i, k)), HfName(HfLayer(i, v)), c.shape, hf, NemoName(base, Layer(i, qkv)), nemo)
  {
    HfHeld(c, hfTensor, hf, i, q);
    HfHeld(c, hfTensor, hf, i, k);
    HfHeld(c, hfTensor, hf, i, v);
    NemoHeld(c, tensor, nemo, base, i, qkv);
  }

  lemma AttentionCorresponding(c: Config, hf: StateDict, hfTensor: HfKey -> Tensor, nemo: StateDict, tensor: NemoKey -> Tensor,
                               base: string, i: nat)
    requires HfHolds(c, hfTensor, hf) && NemoHolds(c, tensor, nemo, base) && i < c.layers
    requires LayerFits(c, hfTensor, i) && ConvertsQkv(c, hfTensor, tensor, i)
    ensures AttentionCorresponds(c, hf, nemo, base, i)
  {
    AttentionInterleaved(c, hfTensor, tensor, i);
    ProjectionsCorrespond(c, hf, hfTensor, nemo, tensor, base, i, QWeight, KWeight, VWeight, QkvWeight);
    if c.family.Qwen? {
      ProjectionsCorrespond(c, hf, hfTensor, nemo, tensor, base, i, QBias, KBias, VBias, QkvBias);
    }
    HfAttentionEntries(i);
    NemoEntries(base, i);
  }

  lemma RestCorresponding(c: Config, hf: StateDict, hfTensor: HfKey -> Tensor, nemo: StateDict, tensor: NemoKey -> Tensor,
                          base: string, i: nat)
    requires HfHolds(c, hfTensor, hf) && NemoHolds(c, tensor, nemo, base) && i < c.layers
    requires LayerFits(c, hfTensor, i) && ConvertsRest(hfTensor, tensor, i)
    ensures RestCorresponds(c, hf, nemo, base, i)
  {
    PartCorresponds(c, hf, hfTensor, nemo, tensor, base, i, OProj, LinearProj);
    GateAndUpCorrespond(c, hf, hfTensor, nemo, tensor, base, i);
    PartCorresponds(c, hf, hfTensor, nemo, tensor, base, i, DownProj, Fc2);
    PartCorresponds(c, hf, hfTensor, nemo, tensor, base, i, HfInputNorm, InputNorm);
    PartCorresponds(c, hf, hfTensor, nemo, tensor, base, i, HfPostNorm, PostNorm);
    HfOtherEntries(i);
    NemoEntries(base, i);
  }

  lemma AttentionInterleaved(c: Config, hf: HfKey -> Tensor, nemo: NemoKey -> Tensor, i: nat)
    requires LayerFits(c, hf, i) && ConvertsQkv(c, hf, nemo, i)
    ensures Interleaved(nemo(Layer(i, QkvWeight)), hf(HfLayer(i, QWeight)), hf(HfLayer(i, KWeight)), hf(HfLayer(i, VWeight)), c.shape)
    ensures c.family.Qwen? ==>
      Interleaved(nemo(Layer(i, QkvBias)), hf(HfLayer(i, QBias)), hf(HfLayer(i, KBias)), hf(HfLayer(i, VBias)), c.shape)
  {
    PackInterleavesIff(nemo(Layer(i, QkvWeight)), hf(HfLayer(i, QWeight)), hf(HfLayer(i, KWeight)), hf(HfLayer(i, VWeight)), c.shape);
    if c.family.Qwen? {
      PackInterleavesIff(nemo(Layer(i, QkvBias)), hf(HfLayer(i, QBias)), hf(HfLayer(i, KBias)), hf(HfLayer(i, VBias)), c.shape);
    }
  }

  lemma DictsCorrespond(c: Config, hf: StateDict, hfTensor: HfKey -> Tensor, nemo: StateDict, tensor: NemoKey -> Tensor, base: string)
    requires HfHolds(c, hfTensor, hf) && NemoHolds(c, tensor, nemo, base)
    requires forall i :: 0 <= i < c.layers ==> LayerFits(c, hfTensor, i) && ConvertsLayer(c, hfTensor, tensor, i)
    requires tensor(Embed) == hfTensor(HfEmbed) && tensor(FinalNorm) == hfTensor(HfNorm) && tensor(OutputLayer) == hfTensor(HfHead)
    ensures Corresponds(c, hf, nemo, base)
  {
    assert InHf(c, HfEmbed) && InHf(c, HfNorm) && InHf(c, HfHead);
    assert InNemo(c, false, Embed) && InNemo(c, false, FinalNorm) && InNemo(c, false, OutputLayer);
    forall i: nat | i < c.layers
      ensures AttentionCorresponds(c, hf, nemo, base, i) && RestCorresponds(c, hf, nemo, base, i)
    {
      AttentionCorresponding(c, hf, hfTensor, nemo, tensor, base, i);
      RestCorresponding(c, hf, hfTensor, nemo, tensor, base, i);
    }
  }

  /** Nothing but parameters of the model; biases only for Qwen. */
  ghost predicate OnlyNemo(c: Config, rotary: bool, d: StateDict, base: string) {
    forall s :: s in d ==> exists k ::
      && s == NemoName(base, k) && (k.Rotary? ==> rotary)
      && (k.Layer? ==> k.index < c.layers && (k.part.QkvBias? ==> c.family.Qwen?))
  }

  ghost predicate OnlyHf(c: Config, hf: StateDict) {
    forall s :: s in hf ==> exists k ::
      && s == HfName(k)
      && (k.HfLayer? ==> k.index < c.layers && (k.part.QBias? || k.part.KBias? || k.part.VBias? ==> c.family.Qwen?))
  }

  lemma NothingElse(c: Config, rotary: bool, keys: set<NemoKey>, tensor: NemoKey -> Tensor, d: StateDict, base: string)
    requires (forall k :: k in keys <==> InNemo(c, rotary, k)) && Renders((k: NemoKey) => NemoName(base, k), keys, tensor, d)
    ensures OnlyNemo(c, rotary, d, base)
  {
    forall s | s in d
      ensures exists k ::
        && s == NemoName(base, k) && (k.Rotary? ==> rotary)
        && (k.Layer? ==> k.index < c.layers && (k.part.QkvBias? ==> c.family.Qwen?))
    {
      var k :| k in keys && s == NemoName(base, k);
      assert InNemo(c, rotary, k);
    }
  }

  lemma NothingElseHf(c: Config, keys: set<HfKey>, tensor: HfKey -> Tensor, hf: StateDict)
    requires (forall k :: k in keys <==> InHf(c, k)) && Renders(HfName, keys, tensor, hf)
    ensures OnlyHf(c, hf)
  {
    forall s | s in hf
      ensures exists k ::
        && s == HfName(k)
        && (k.HfLayer? ==> k.index < c.layers && (k.part.QBias? || k.part.KBias? || k.part.VBias? ==> c.family.Qwen?))
    {
      var k :| k in keys && s == HfName(k);
      assert InHf(c, k);
    }
  }

  /** What the HF converter writes, below `model.` or, renamed, below `model.module.`. */
  method ConvertHf(c: Config, hf: StateDict) returns (d: StateDict)
    requires HfReady(NAMES, c, hf)
    ensures Corresponds(c, hf, d, if c.ampO2 then "model.module." else "model.")
    ensures OnlyNemo(c, "model.layers.0.self_attn.rotary_emb.inv_freq" in hf, d, if c.ampO2 then "model.module." else "model.")
    ensures "model.layers.0.self_attn.rotary_emb.inv_freq" in hf ==>
      Same(hf, "model.layers.0.self_attn.rotary_emb.inv_freq", d, (if c.ampO2 then "model.module." else "model.") + "rotary_pos_emb.inv_freq")
  {
    NamesProper();
    ghost var source, rotary := Reading(NAMES.hf, hf), if NAMES.rotary in hf then hf[NAMES.rotary] else [];
    ghost var tensor := NemoTensors(c, source, rotary);
    NemoTensorsConvert(c, source, rotary);
    ghost var keys;
    d, keys := HfToNemo(NAMES, c, hf, tensor);
    ghost var base := if c.ampO2 then MODULE else MODEL;
    forall k | InNemo(c, NAMES.rotary in hf, k)
      ensures NemoName(base, k) in d && d[NemoName(base, k)] == tensor(k)
    {
      assert k in keys;
    }
    DictsCorrespond(c, hf, source, d, tensor, base);
    NothingElse(c, NAMES.rotary in hf, keys, tensor, d, base);
    assert InNemo(c, true, Rotary);
  }

  /** Unpacking is undone by packing. */
  lemma RestoredConverts(c: Config, hf: HfKey -> Tensor, nemo: NemoKey -> Tensor, i: nat)
    requires NemoLayerFits(c, nemo, i) && RestoresLayer(c, nemo, hf, i)
    ensures LayerFits(c, hf, i) && ConvertsLayer(c, hf, nemo, i)
  {
    PackUnpackTensor(nemo(Layer(i, QkvWeight)), c.shape);
    if c.family.Qwen? {
      PackUnpackTensor(nemo(Layer(i, QkvBias)), c.shape);
    }
    var fc1 := nemo(Layer(i, Fc1));
    assert fc1 == fc1[..c.ffn] + fc1[c.ffn..];
  }

  lemma RestoredCorrespond(c: Config, d: StateDict, nemo: NemoKey -> Tensor, base: string, hf: StateDict,
                           back: HfKey -> Tensor, keys: set<HfKey>)
    requires NemoHolds(c, nemo, d, base) && Restores(c, nemo, back)
    requires forall i :: 0 <= i < c.layers ==> NemoLayerFits(c, nemo, i)
    requires (forall k :: k in keys <==> InHf(c, k)) && Renders(HfName, keys, back, hf)
    ensures Corresponds(c, hf, d, base)
  {
    forall i | 0 <= i < c.layers
      ensures LayerFits(c, back, i) && ConvertsLayer(c, back, nemo, i)
    {
      RestoredConverts(c, back, nemo, i);
    }
    forall k | InHf(c, k)
      ensures HfName(k) in hf && hf[HfName(k)] == back(k)
    {
      assert k in keys;
    }
    DictsCorrespond(c, hf, back, d, nemo, base);
  }

  /** The tensors of a NeMo state dict below one of the two bases. */
  function BelowBase(d: StateDict, renamed: bool): NemoKey -> Tensor {
    Reading(if renamed then NAMES.below else NAMES.nemo, d)
  }

  /** What the NeMo converter writes: the HF layout of the same model. */
  method ConvertNemo(c: Config, d: StateDict, ghost renamed: bool) returns (r: Result<StateDict, string>)
    requires Holds(c, if renamed then NAMES.below else NAMES.nemo, BelowBase(d, renamed), d)
    requires renamed ==> NAMES.nemo(Embed) !in d
    requires forall i :: 0 <= i < c.layers ==> NemoLayerFits(c, BelowBase(d, renamed), i)
    ensures r.Err? <==> c.family.Qwen? && renamed
    ensures r.Ok? ==> Corresponds(c, r.value, d, if renamed then "model.module." else "model.") && OnlyHf(c, r.value)
  {
    NamesProper();
    ghost var nemo := BelowBase(d, renamed);
    ghost var back := HfTensors(c, nemo);
    HfTensorsRestore(c, nemo);
    ghost var keys;
    r, keys := NemoToHf(NAMES, c, d, renamed, nemo, back);
    if r.Ok? {
      NothingElseHf(c, keys, back, r.value);
      RestoredCorrespond(c, d, nemo, if renamed then MODULE else MODEL, r.value, back, keys);
    }
  }
}
