/** Packed structures byte by byte: which byte of which field lies where. */
module WireLayout {
  import opened Arithmetic
  import opened Wire

  /** The `w` bytes from `at` on are the number's digits to base 256, the least significant one first. */
  predicate FieldAt(bs: Bytes, at: nat, w: nat, n: nat) {
    at + w <= |bs| && forall i :: 0 <= i < w ==> bs[at + i] == DigitOf(n, i)
  }

  /** n / 256^i % 256 */
  function DigitOf(n: nat, i: nat): nat {
    RadixPositive(i);
    n / Radix(i) % 256
  }

  lemma {:induction false} RadixPositive(i: nat)
    ensures Radix(i) > 0
  {
    if i > 0 { RadixPositive(i - 1); }
  }

  lemma NextDigit(n: nat, i: nat)
    ensures DigitOf(n, i + 1) == DigitOf(n / 256, i)
  {
    RadixPositive(i);
    QuotientOfQuotient(n, 256, Radix(i));
  }

  lemma {:induction false} DigitsOf(n: nat, w: nat, i: nat)
    requires i < w
    ensures LE(n, w)[i] == DigitOf(n, i)
    decreases w
  {
    if i > 0 {
      DigitsOf(n / 256, w - 1, i - 1);
      NextDigit(n, i - 1);
    }
  }

  lemma PackedAt(bs: Bytes, at: nat, w: nat, n: nat)
    requires at + w <= |bs| && bs[at..at + w] == LE(n, w)
    ensures FieldAt(bs, at, w, n)
  {
    forall i | 0 <= i < w ensures bs[at + i] == DigitOf(n, i) {
      DigitsOf(n, w, i);
      assert bs[at + i] == bs[at..at + w][i];
    }
  }

  /** `<IBBHQI` */
  lemma HeaderLayout(h: Header)
    ensures var bs := PackHeader(h);
      && |bs| == 20 && FieldAt(bs, 0, 4, h.magic) && FieldAt(bs, 4, 1, h.first) && FieldAt(bs, 5, 1, h.second)
      && FieldAt(bs, 6, 2, h.reserved) && FieldAt(bs, 8, 8, h.offset) && FieldAt(bs, 16, 4, h.length)
  {
    var bs := PackHeader(h);
    assert bs[0..4] == LE(h.magic, 4);
    PackedAt(bs, 0, 4, h.magic);
    assert bs[4..5] == LE(h.first, 1);
    PackedAt(bs, 4, 1, h.first);
    assert bs[5..6] == LE(h.second, 1);
    PackedAt(bs, 5, 1, h.second);
    assert bs[6..8] == LE(h.reserved, 2);
    PackedAt(bs, 6, 2, h.reserved);
    assert bs[8..16] == LE(h.offset, 8);
    PackedAt(bs, 8, 8, h.offset);
    assert bs[16..20] == LE(h.length, 4);
    PackedAt(bs, 16, 4, h.length);
  }

  /** `<QII` */
  lemma ItemLayout(i: Item)
    ensures var bs := PackItem(i);
      |bs| == 16 && FieldAt(bs, 0, 8, i.offset) && FieldAt(bs, 8, 4, i.length) && FieldAt(bs, 12, 4, i.id)
  {
    var bs := PackItem(i);
    assert bs[0..8] == LE(i.offset, 8);
    PackedAt(bs, 0, 8, i.offset);
    assert bs[8..12] == LE(i.length, 4);
    PackedAt(bs, 8, 4, i.length);
    assert bs[12..16] == LE(i.id, 4);
    PackedAt(bs, 12, 4, i.id);
  }

  /** `<QIII` */
  lemma CandidateLayout(c: Candidate)
    ensures var bs := PackCandidate(c);
      && |bs| == 20 && FieldAt(bs, 0, 8, c.offset) && FieldAt(bs, 8, 4, c.length) && FieldAt(bs, 12, 4, c.id)
      && FieldAt(bs, 16, 4, c.tokens)
  {
    var bs := PackCandidate(c);
    assert bs[0..8] == LE(c.offset, 8);
    PackedAt(bs, 0, 8, c.offset);
    assert bs[8..12] == LE(c.length, 4);
    PackedAt(bs, 8, 4, c.length);
    assert bs[12..16] == LE(c.id, 4);
    PackedAt(bs, 12, 4, c.id);
    assert bs[16..20] == LE(c.tokens, 4);
    PackedAt(bs, 16, 4, c.tokens);
  }

  /** `<IIIIIf` */
  lemma TopkHeaderLayout(h: TopkHeader)
    ensures var bs := PackTopkHeader(h);
      && |bs| == 24 && FieldAt(bs, 0, 4, h.candidates) && FieldAt(bs, 4, 4, h.topK) && FieldAt(bs, 8, 4, h.qHeads)
      && FieldAt(bs, 12, 4, h.kvHeads) && FieldAt(bs, 16, 4, h.headDim) && FieldAt(bs, 20, 4, h.scale)
  {
    var bs := PackTopkHeader(h);
    assert bs[0..4] == LE(h.candidates, 4);
    PackedAt(bs, 0, 4, h.candidates);
    assert bs[4..8] == LE(h.topK, 4);
    PackedAt(bs, 4, 4, h.topK);
    assert bs[8..12] == LE(h.qHeads, 4);
    PackedAt(bs, 8, 4, h.qHeads);
    assert bs[12..16] == LE(h.kvHeads, 4);
    PackedAt(bs, 12, 4, h.kvHeads);
    assert bs[16..20] == LE(h.headDim, 4);
    PackedAt(bs, 16, 4, h.headDim);
    assert bs[20..24] == LE(h.scale, 4);
    PackedAt(bs, 20, 4, h.scale);
  }

  /** `<IfI` */
  lemma TopItemLayout(t: TopItem)
    ensures var bs := PackTopItem(t);
      |bs| == 12 && FieldAt(bs, 0, 4, t.id) && FieldAt(bs, 4, 4, t.score) && FieldAt(bs, 8, 4, t.tokens)
  {
    var bs := PackTopItem(t);
    assert bs[0..4] == LE(t.id, 4);
    PackedAt(bs, 0, 4, t.id);
    assert bs[4..8] == LE(t.score, 4);
    PackedAt(bs, 4, 4, t.score);
    assert bs[8..12] == LE(t.tokens, 4);
    PackedAt(bs, 8, 4, t.tokens);
  }

  /** `<BII` */
  lemma ItemHeadLayout(h: ItemHead)
    ensures var bs := PackItemHead(h);
      |bs| == 9 && FieldAt(bs, 0, 1, h.status) && FieldAt(bs, 1, 4, h.id) && FieldAt(bs, 5, 4, h.length)
  {
    var bs := PackItemHead(h);
    assert bs[0..1] == LE(h.status, 1);
    PackedAt(bs, 0, 1, h.status);
    assert bs[1..5] == LE(h.id, 4);
    PackedAt(bs, 1, 4, h.id);
    assert bs[5..9] == LE(h.length, 4);
    PackedAt(bs, 5, 4, h.length);
  }
}
