/** The one entry of the NeMo model configuration that the converter computes itself (`load_config`). */
module ModelConfig {
  import opened Arithmetic

  /** `make_vocab_size_divisible_by`: halve 128 until it divides the vocabulary. */
  method VocabDivisor(vocabSize: nat) returns (base: nat)
    ensures 0 < base && 128 % base == 0 && vocabSize % base == 0
    ensures forall b :: base < b <= 128 && 128 % b == 0 ==> vocabSize % b != 0
  {
    base := 128;
    while vocabSize % base != 0
      invariant base in {1, 2, 4, 8, 16, 32, 64, 128}
      invariant forall b: nat :: b in {1, 2, 4, 8, 16, 32, 64, 128} && base < b ==> vocabSize % b != 0
      decreases base
    {
      base := base / 2;
    }
    forall b | base < b <= 128 && 128 % b == 0
      ensures vocabSize % b != 0
    {
      DivisorsOf128(b);
    }
  }
}
