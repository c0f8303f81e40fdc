/** Parameter names of the two checkpoint formats; both name every parameter differently. */
module CheckpointNames {

  datatype HfPart =
    | QWeight | KWeight | VWeight | QBias | KBias | VBias | OProj
    | GateProj | UpProj | DownProj | HfInputNorm | HfPostNorm

  datatype HfKey = HfEmbed | HfNorm | HfHead | HfLayer(index: nat, part: HfPart)

  datatype NemoPart = QkvWeight | QkvBias | LinearProj | Fc1 | Fc2 | InputNorm | PostNorm

  datatype NemoKey = Embed | Rotary | FinalNorm | OutputLayer | Layer(index: nat, part: NemoPart)

  function Decimal(n: nat): string {
    if n < 10 then [Digit(n)] else Decimal(n / 10) + [Digit(n % 10)]
  }

  function Digit(d: nat): char
    requires d < 10
  {
    "0123456789"[d]
  }

  function HfPartName(p: HfPart): string {
    match p
    case QWeight => "self_attn.q_proj.weight"
    case KWeight => "self_attn.k_proj.weight"
    case VWeight => "self_attn.v_proj.weight"
    case QBias => "self_attn.q_proj.bias"
    case KBias => "self_attn.k_proj.bias"
    case VBias => "self_attn.v_proj.bias"
    case OProj => "self_attn.o_proj.weight"
    case GateProj => "mlp.gate_proj.weight"
    case UpProj => "mlp.up_proj.weight"
    case DownProj => "mlp.down_proj.weight"
    case HfInputNorm => "input_layernorm.weight"
    case HfPostNorm => "post_attention_layernorm.weight"
  }

  function NemoPartName(p: NemoPart): string {
    match p
    case QkvWeight => "self_attention.linear_qkv.weight"
    case QkvBias => "self_attention.linear_qkv.bias"
    case LinearProj => "self_attention.linear_proj.weight"
    case Fc1 => "mlp.linear_fc1.weight"
    case Fc2 => "mlp.linear_fc2.weight"
    case InputNorm => "self_attention.linear_qkv.layer_norm_weight"
    case PostNorm => "mlp.linear_fc1.layer_norm_weight"
  }

  function HfName(k: HfKey): string {
    match k
    case HfEmbed => "model.embed_tokens.weight"
    case HfNorm => "model.norm.weight"
    case HfHead => "lm_head.weight"
    case HfLayer(i, p) => "model.layers." + (Decimal(i) + ("." + HfPartName(p)))
  }

  const ROTARY := "model.layers.0.self_attn.rotary_emb.inv_freq"

  /** The name below the base name. */
  function NemoSuffix(k: NemoKey): string {
    match k
    case Embed => "embedding.word_embeddings.weight"
    case Rotary => "rotary_pos_emb.inv_freq"
    case FinalNorm => "decoder.final_layernorm.weight"
    case OutputLayer => "output_layer.weight"
    case Layer(i, p) => "decoder.layers." + (Decimal(i) + ("." + NemoPartName(p)))
  }

  const MODEL := "model."
  const MODULE := "model.module."

  function NemoName(base: string, k: NemoKey): string {
    base + NemoSuffix(k)
  }

  // ---------------------------------------------------------------------------
  // Names are unique
  // ---------------------------------------------------------------------------

  function ValueOfDigits(s: string): int {
    if s == [] then 0 else 10 * ValueOfDigits(s[..|s| - 1]) + (s[|s| - 1] as int - '0' as int)
  }

  lemma DigitValue(d: nat)
    requires d < 10
    ensures Digit(d) as int - '0' as int == d && Digit(d) != '.' && '0' <= Digit(d) <= '9'
  {
    var s := "0123456789";
    assert s[0] == '0' && s[1] == '1' && s[2] == '2' && s[3] == '3' && s[4] == '4';
    assert s[5] == '5' && s[6] == '6' && s[7] == '7' && s[8] == '8' && s[9] == '9';
  }

  /** `Decimal(n)` is the numeral for `n`: its digits have that value, and it has no leading zero. */
  lemma {:induction false} DecimalValue(n: nat)
    ensures ValueOfDigits(Decimal(n)) == n && '.' !in Decimal(n)
    ensures Decimal(n) != [] && (n > 0 ==> Decimal(n)[0] != '0')
    ensures forall i :: 0 <= i < |Decimal(n)| ==> '0' <= Decimal(n)[i] <= '9'
  {
    DigitValue(n % 10);
    if n >= 10 {
      DecimalValue(n / 10);
      var s := Decimal(n);
      assert s[..|s| - 1] == Decimal(n / 10);
    } else {
      assert Decimal(n)[..0] == [];
    }
  }

  lemma SplitAtDot(a: string, b: string, p: string, q: string)
    requires '.' !in a && '.' !in b
    requires a + ("." + p) == b + ("." + q)
    ensures a == b && p == q
  {
    var x, y := a + ("." + p), b + ("." + q);
    assert x[|a|] == '.' && y[|b|] == '.';
    assert forall i :: 0 <= i < |a| ==> x[i] != '.';
    assert forall i :: 0 <= i < |b| ==> y[i] != '.';
    assert x[..|a|] == a && y[..|b|] == b;
    assert x[|a| + 1..] == p && y[|b| + 1..] == q;
  }

  lemma HfPartNamesDistinct(a: HfPart, b: HfPart)
    requires HfPartName(a) == HfPartName(b)
    ensures a == b
  {
    var x, y := HfPartName(a), HfPartName(b);
    assert |x| == |y| && x[4] == y[4] && x[10] == y[10];
  }

  lemma NemoPartNamesDistinct(a: NemoPart, b: NemoPart)
    requires NemoPartName(a) == NemoPartName(b)
    ensures a == b
  {
    var x, y := NemoPartName(a), NemoPartName(b);
    assert |x| == |y| && x[13] == y[13];
  }

  lemma HfNamesDistinct(a: HfKey, b: HfKey)
    requires HfName(a) == HfName(b)
    ensures a == b
  {
    var x, y := HfName(a), HfName(b);
    assert x[0] == y[0] && x[6] == y[6];
    if a.HfLayer? && b.HfLayer? {
      DecimalValue(a.index);
      DecimalValue(b.index);
      assert x[13..] == Decimal(a.index) + ("." + HfPartName(a.part));
      assert y[13..] == Decimal(b.index) + ("." + HfPartName(b.part));
      SplitAtDot(Decimal(a.index), Decimal(b.index), HfPartName(a.part), HfPartName(b.part));
      HfPartNamesDistinct(a.part, b.part);
    }
  }

  lemma LayerSuffixesDistinct(i: nat, p: NemoPart, j: nat, q: NemoPart)
    requires NemoSuffix(Layer(i, p)) == NemoSuffix(Layer(j, q))
    ensures i == j && p == q
  {
    var x, y := NemoSuffix(Layer(i, p)), NemoSuffix(Layer(j, q));
    DecimalValue(i);
    DecimalValue(j);
    assert x[15..] == Decimal(i) + ("." + NemoPartName(p));
    assert y[15..] == Decimal(j) + ("." + NemoPartName(q));
    SplitAtDot(Decimal(i), Decimal(j), NemoPartName(p), NemoPartName(q));
    NemoPartNamesDistinct(p, q);
  }

  /** Two characters tell the kinds of parameters apart. */
  lemma SuffixKind(k: NemoKey)
    ensures |NemoSuffix(k)| > 8
    ensures NemoSuffix(k)[0] == (match k case Embed => 'e' case Rotary => 'r' case OutputLayer => 'o' case _ => 'd')
    ensures k.FinalNorm? ==> NemoSuffix(k)[8] == 'f'
    ensures k.Layer? ==> NemoSuffix(k)[8] == 'l'
  {
  }

  lemma NemoNamesDistinct(base: string, a: NemoKey, b: NemoKey)
    requires NemoName(base, a) == NemoName(base, b)
    ensures a == b
  {
    assert NemoName(base, a)[|base|..] == NemoSuffix(a) && NemoName(base, b)[|base|..] == NemoSuffix(b);
    SuffixKind(a);
    SuffixKind(b);
    if a.Layer? && b.Layer? {
      LayerSuffixesDistinct(a.index, a.part, b.index, b.part);
    }
  }

  // ---------------------------------------------------------------------------
  // The names, written as the converters write them
  // ---------------------------------------------------------------------------

  /** `f"{directory}{index}.{part}"`. */
  function LayerEntry(directory: string, index: nat, part: string): string {
    directory + Decimal(index) + "." + part
  }

  function HfEntry(index: nat, part: string): string {
    LayerEntry("model.layers.", index, part)
  }

  function NemoEntry(base: string, index: nat, part: string): string {
    LayerEntry(base + "decoder.layers.", index, part)
  }

  lemma Regroup(base: string, directory: string, index: string, part: string)
    ensures base + (directory + (index + ("." + part))) == base + directory + index + "." + part
    ensures directory + (index + ("." + part)) == directory + index + "." + part
  {
  }

  lemma NemoEntryName(base: string, i: nat, p: NemoPart)
    ensures NemoName(base, Layer(i, p)) == NemoEntry(base, i, NemoPartName(p))
  {
    Regroup(base, "decoder.layers.", Decimal(i), NemoPartName(p));
  }

  /** The entries of a NeMo layer. */
  lemma NemoEntries(base: string, i: nat)
    ensures NemoName(base, Layer(i, QkvWeight)) == NemoEntry(base, i, "self_attention.linear_qkv.weight")
    ensures NemoName(base, Layer(i, QkvBias)) == NemoEntry(base, i, "self_attention.linear_qkv.bias")
    ensures NemoName(base, Layer(i, LinearProj)) == NemoEntry(base, i, "self_attention.linear_proj.weight")
    ensures NemoName(base, Layer(i, Fc1)) == NemoEntry(base, i, "mlp.linear_fc1.weight")
    ensures NemoName(base, Layer(i, Fc2)) == NemoEntry(base, i, "mlp.linear_fc2.weight")
    ensures NemoName(base, Layer(i, InputNorm)) == NemoEntry(base, i, "self_attention.linear_qkv.layer_norm_weight")
    ensures NemoName(base, Layer(i, PostNorm)) == NemoEntry(base, i, "mlp.linear_fc1.layer_norm_weight")
  {
    forall p: NemoPart
      ensures NemoName(base, Layer(i, p)) == NemoEntry(base, i, NemoPartName(p))
    {
      Regroup(base, "decoder.layers.", Decimal(i), NemoPartName(p));
    }
  }

  lemma HfEntryName(i: nat, p: HfPart)
    ensures HfName(HfLayer(i, p)) == HfEntry(i, HfPartName(p))
  {
    Regroup("", "model.layers.", Decimal(i), HfPartName(p));
  }

  /** The entries of an HF layer. */
  lemma HfAttentionEntries(i: nat)
    ensures HfName(HfLayer(i, QWeight)) == HfEntry(i, "self_attn.q_proj.weight")
    ensures HfName(HfLayer(i, KWeight)) == HfEntry(i, "self_attn.k_proj.weight")
    ensures HfName(HfLayer(i, VWeight)) == HfEntry(i, "self_attn.v_proj.weight")
    ensures HfName(HfLayer(i, QBias)) == HfEntry(i, "self_attn.q_proj.bias")
    ensures HfName(HfLayer(i, KBias)) == HfEntry(i, "self_attn.k_proj.bias")
    ensures HfName(HfLayer(i, VBias)) == HfEntry(i, "self_attn.v_proj.bias")
  {
    HfEntryName(i, QWeight);
    HfEntryName(i, KWeight);
    HfEntryName(i, VWeight);
    HfEntryName(i, QBias);
    HfEntryName(i, KBias);
    HfEntryName(i, VBias);
  }

  lemma HfOtherEntries(i: nat)
    ensures HfName(HfLayer(i, OProj)) == HfEntry(i, "self_attn.o_proj.weight")
    ensures HfName(HfLayer(i, GateProj)) == HfEntry(i, "mlp.gate_proj.weight")
    ensures HfName(HfLayer(i, UpProj)) == HfEntry(i, "mlp.up_proj.weight")
    ensures HfName(HfLayer(i, DownProj)) == HfEntry(i, "mlp.down_proj.weight")
    ensures HfName(HfLayer(i, HfInputNorm)) == HfEntry(i, "input_layernorm.weight")
    ensures HfName(HfLayer(i, HfPostNorm)) == HfEntry(i, "post_attention_layernorm.weight")
  {
    HfEntryName(i, OProj);
    HfEntryName(i, GateProj);
    HfEntryName(i, UpProj);
    HfEntryName(i, DownProj);
    HfEntryName(i, HfInputNorm);
    HfEntryName(i, HfPostNorm);
  }

  /** No name under one base is a name under the other. */
  lemma BasesDisjoint(a: NemoKey, b: NemoKey)
    ensures NemoName(MODEL, a) != NemoName(MODULE, b)
  {
    SuffixKind(a);
    assert NemoName(MODEL, a)[6] == NemoSuffix(a)[0];
    assert NemoName(MODULE, b)[6] == MODULE[6] == 'm';
  }

  // ---------------------------------------------------------------------------
  // Renaming
  // ---------------------------------------------------------------------------

  /** `key.replace("model.", "model.module.", 1)`. */
  function Rename(key: string): string
    decreases |key|
  {
    if |key| < |MODEL| then key
    else if key[..|MODEL|] == MODEL then MODULE + key[|MODEL|..]
    else [key[0]] + Rename(key[1..])
  }

  /** `model.` stands at position `i`. */
  predicate ModelAt(s: string, i: nat) {
    i + |MODEL| <= |s| && s[i..i + |MODEL|] == MODEL
  }

  lemma ModelAtTail(s: string, i: nat)
    requires s != []
    ensures ModelAt(s[1..], i) <==> ModelAt(s, i + 1)
  {
    if i + 1 + |MODEL| <= |s| {
      assert s[1..][i..i + |MODEL|] == s[i + 1..i + 1 + |MODEL|];
    }
  }

  /** Exactly the first `model.` is replaced, wherever it stands. */
  lemma {:induction false} RenameFirst(s: string, i: nat)
    requires ModelAt(s, i) && forall j :: 0 <= j < i ==> !ModelAt(s, j)
    ensures Rename(s) == s[..i] + MODULE + s[i + |MODEL|..]
  {
    if i > 0 {
      assert !ModelAt(s, 0);
      forall j | 0 <= j < i - 1
        ensures !ModelAt(s[1..], j)
      {
        ModelAtTail(s, j);
      }
      ModelAtTail(s, i - 1);
      RenameFirst(s[1..], i - 1);
      RenameTail(s, i);
    } else {
      assert s[..0] + MODULE == MODULE;
    }
  }

  lemma RenameTail(s: string, i: nat)
    requires 0 < i && i + |MODEL| <= |s|
    ensures [s[0]] + (s[1..][..i - 1] + MODULE + s[1..][i - 1 + |MODEL|..]) == s[..i] + MODULE + s[i + |MODEL|..]
  {
    assert s[..i] == [s[0]] + s[1..][..i - 1];
    assert s[1..][i - 1 + |MODEL|..] == s[i + |MODEL|..];
  }

  lemma {:induction false} RenameNothing(s: string)
    requires forall j: nat :: !ModelAt(s, j)
    ensures Rename(s) == s
  {
    if |s| >= |MODEL| {
      assert !ModelAt(s, 0);
      forall j: nat
        ensures !ModelAt(s[1..], j)
      {
        ModelAtTail(s, j);
      }
      RenameNothing(s[1..]);
      assert s == [s[0]] + s[1..];
    }
  }

  lemma RenameName(k: NemoKey)
    ensures Rename(NemoName(MODEL, k)) == NemoName(MODULE, k)
  {
    var s := NemoName(MODEL, k);
    assert s[..|MODEL|] == MODEL && s[|MODEL|..] == NemoSuffix(k);
  }

  /** A naming scheme: HF names, NeMo names, NeMo names below the `module` base, and the renaming between the two. */
  datatype Naming = Naming(hf: HfKey -> string, nemo: NemoKey -> string, below: NemoKey -> string,
                           rotary: string, rename: string -> string) {

    ghost predicate Proper() {
      && Injective(hf) && Injective(nemo) && Injective(below)
      && (forall a, b :: nemo(a) != below(b))
      && (forall k :: rename(nemo(k)) == below(k))
    }
  }

  ghost predicate Injective<K(!new)>(name: K -> string) {
    forall a, b :: name(a) == name(b) ==> a == b
  }

  /** The naming scheme of the converters. */
  const NAMES := Naming(HfName, (k: NemoKey) => NemoName(MODEL, k), (k: NemoKey) => NemoName(MODULE, k), ROTARY,
                         (s: string) => Rename(s))

  /** No two parameters share a name, in either format, with or without the renaming. */
  lemma NamesProper()
    ensures NAMES.Proper()
  {
    forall a, b | NAMES.hf(a) == NAMES.hf(b)
      ensures a == b
    {
      HfNamesDistinct(a, b);
    }
    forall a, b | NAMES.nemo(a) == NAMES.nemo(b)
      ensures a == b
    {
      NemoNamesDistinct(MODEL, a, b);
    }
    forall a, b | NAMES.below(a) == NAMES.below(b)
      ensures a == b
    {
      NemoNamesDistinct(MODULE, a, b);
    }
    forall a, b
      ensures NAMES.nemo(a) != NAMES.below(b)
    {
      BasesDisjoint(a, b);
    }
    forall k
      ensures NAMES.rename(NAMES.nemo(k)) == NAMES.below(k)
    {
      RenameName(k);
    }
  }
}
