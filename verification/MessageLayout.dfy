/**
 The layout of the message bodies: where each field lies, and that the bytes read as an announce or a
 subscribe info are the ones that the encoder would write.
 */
module MessageLayout {
  import opened Ordered
  import opened Bytes
  import opened Codecs
  import opened NodeCodec

  lemma Within<T>(s: seq<T>, from: nat, at: nat, len: nat)
    requires from + at + len <= |s|
    ensures s[from + at..from + at + len] == s[from..][at..at + len]
  {
  }

  // ---------------------------------------------------------------- announce info

  lemma NumberForth(s: seq<byte>, w: nat)
    requires TakeNumber(s, w).Parsed?
    ensures var n := TakeNumber(s, w); BE(n.value, w) + n.rest == s && n.value < Pow256(w)
  {
    BEOfValue(s[..w]);
    ValueBound(s[..w]);
  }

  lemma EntriesStep(s: seq<byte>, n: nat)
    requires n > 0 && DecodeEntries(s, n).Parsed?
    ensures var len := TakeNumber(s, 2);
            && len.Parsed? && TakeBytes(len.rest, len.value).Parsed?
            && var entry := TakeBytes(len.rest, len.value);
               var more := DecodeEntries(entry.rest, n - 1);
               && more.Parsed? && DecodeEntries(s, n) == Parsed([entry.value] + more.value, more.rest)
               && |entry.value| == len.value && len.rest == entry.value + entry.rest
  {
  }

  ghost predicate EntriesFit(ns: seq<seq<byte>>) {
    forall i | 0 <= i < |ns| :: |ns[i]| < 0x1_0000
  }

  lemma {:induction false} EntriesForth(s: seq<byte>, n: nat)
    requires DecodeEntries(s, n).Parsed?
    ensures var ns := DecodeEntries(s, n);
            EncodeEntries(ns.value) + ns.rest == s && |ns.value| == n && EntriesFit(ns.value)
    decreases n
  {
    if n > 0 {
      EntriesStep(s, n);
      var len := TakeNumber(s, 2);
      var entry := TakeBytes(len.rest, len.value);
      EntriesForth(entry.rest, n - 1);
      var more := DecodeEntries(entry.rest, n - 1);
      OneEntryForth(s, entry.value, more.value, more.rest);
    }
  }

  lemma OneEntryForth(s: seq<byte>, e: seq<byte>, more: seq<seq<byte>>, rest: seq<byte>)
    requires TakeNumber(s, 2).Parsed? && |e| == TakeNumber(s, 2).value
    requires TakeNumber(s, 2).rest == e + (EncodeEntries(more) + rest)
    ensures EncodeEntries([e] + more) + rest == s && |e| < 0x1_0000
  {
    Widths();
    NumberForth(s, 2);
    assert ([e] + more)[1..] == more;
    EntriesFront([e] + more, rest);
  }

  lemma NameFlagsForth(s: seq<byte>)
    requires DecodeNameFlags(s).Parsed?
    ensures var last := DecodeNameFlags(s);
            && BE(|last.value.0|, 2) + (last.value.0 + ([last.value.1] + last.rest)) == s
            && |last.value.0| < 0x1_0000
  {
    Widths();
    NumberForth(s, 2);
  }

  lemma NamesForth(s: seq<byte>)
    requires DecodeNames(s).Parsed?
    ensures var names := DecodeNames(s);
            && |names.value.0| < 0x100 && |names.value.1| < 0x1_0000
            && EntriesFit(names.value.0)
            && s == [|names.value.0|] + (EncodeEntries(names.value.0)
                    + (BE(|names.value.1|, 2) + (names.value.1 + ([names.value.2] + names.rest))))
  {
    Widths();
    var count := TakeNumber(s, 1);
    var ns := DecodeEntries(count.rest, count.value);
    NumberForth(s, 1);
    OneByte(count.value);
    EntriesForth(count.rest, count.value);
    NameFlagsForth(ns.rest);
  }

  /** The other direction: bytes that are read as an announce are the encoding of what was read, and what
      follows it. */
  lemma AnnounceForth(s: seq<byte>)
    requires DecodeAnnounce(s).Parsed?
    ensures var a := DecodeAnnounce(s); AnnounceFits(a.value) && EncodeAnnounce(a.value) + a.rest == s
  {
    var source := TakeNumber(s, 8);
    var hash := TakeNumber(source.rest, 8);
    NumberForth(s, 8);
    NumberForth(source.rest, 8);
    NamesForth(hash.rest);
    AnnounceParts(DecodeAnnounce(s).value, DecodeAnnounce(s).rest);
  }

  /** Where the fields lie. */
  lemma AnnounceFields(a: AnnounceInfo)
    ensures var e, k := EncodeAnnounce(a), |EncodeEntries(a.ns)|;
            && |e| == 17 + k + 2 + |a.name| + 1
            && e[0..8] == BE(a.source, 8) && e[8..16] == BE(a.hash, 8) && e[16] == |a.ns| % 0x100
            && e[17..17 + k] == EncodeEntries(a.ns)
            && e[17 + k..19 + k] == BE(|a.name|, 2) && e[19 + k..19 + k + |a.name|] == a.name
            && e[|e| - 1] == a.flags
  {
  }

  // ---------------------------------------------------------------- subscribe node set

  lemma {:induction false} NodesAt(ns: seq<int>, i: nat)
    requires i < |ns| && forall j | 0 <= j < |ns| :: ns[j] >= 0
    ensures |EncodeNodes(ns)| == 8 * |ns| && EncodeNodes(ns)[8 * i..8 * i + 8] == BE(ns[i], 8)
    decreases i
  {
    NodesLen(ns);
    var rest := EncodeNodes(ns[1..]);
    assert EncodeNodes(ns) == BE(ns[0], 8) + rest;
    if i > 0 {
      NodesAt(ns[1..], i - 1);
      assert EncodeNodes(ns)[8 * i..8 * i + 8] == rest[8 * (i - 1)..8 * (i - 1) + 8];
    }
  }

  /** Where the fields lie: id, priority, how many nodes, and the nodes in increasing order. */
  lemma SnsFields(b: SnsBody, i: nat)
    requires SnsFits(b) && i < |b.nodes|
    ensures var e := EncodeSns(b);
            && |e| == 7 + 8 * |b.nodes| && Sorted(b.nodes)[i] >= 0
            && e[0..4] == BE(b.id, 4) && e[4] == b.priority && e[5..7] == BE(|b.nodes|, 2)
            && e[7 + 8 * i..15 + 8 * i] == BE(Sorted(b.nodes)[i], 8)
  {
    SortedFits(b);
    NodesAt(Sorted(b.nodes), i);
    var e, tail := EncodeSns(b), EncodeNodes(Sorted(b.nodes));
    assert e[7..] == tail;
    Within(e, 7, 8 * i, 8);
  }

  // ---------------------------------------------------------------- subscribe info

  /** Bytes that are read as a subscribe info are the encoding of what was read, and what follows it. */
  lemma SubscribeForth(s: seq<byte>)
    requires DecodeSubscribe(s).Parsed?
    ensures var p := DecodeSubscribe(s); SubscribeFits(p.value) && EncodeSubscribe(p.value) + p.rest == s
  {
    Widths();
    FieldForth(s[0..2]);
    FieldForth(s[2..10]);
    FieldForth(s[10..18]);
    FieldForth(s[18..26]);
    FieldForth(s[26..34]);
    FieldForth(s[34..38]);
  }

  lemma FieldForth(s: seq<byte>)
    ensures BE(Value(s), |s|) == s && Value(s) < Pow256(|s|)
  {
    BEOfValue(s);
    ValueBound(s);
  }

  // ---------------------------------------------------------------- node info

  lemma {:induction false} PathAt(path: seq<seq<byte>>, i: nat)
    requires i < |path| && forall j | 0 <= j < |path| :: |path[j]| == ITEM
    ensures |EncodePath(path)| == ITEM * |path| && EncodePath(path)[ITEM * i..ITEM * i + ITEM] == path[i]
    decreases i
  {
    PathBack(path);
    PathBack(path[1..]);
    if i > 0 {
      PathAt(path[1..], i - 1);
      assert EncodePath(path)[ITEM * i..ITEM * i + ITEM] == EncodePath(path[1..])[ITEM * (i - 1)..ITEM * (i - 1) + ITEM];
    }
  }

  /** Where the fields lie: id, type, the contact after its length, the coordinates, and the path in order. */
  lemma NodeFields(n: NodeInfo, i: nat)
    requires NodeFits(n) && i < |n.path|
    ensures var e, k := EncodeNode(n), 9 + |EncodeUintVar(|n.contact|)|;
            var m := k + |n.contact|;
            && |e| == m + 16 + ITEM * |n.path|
            && e[0..8] == BE(n.id, 8) && e[8] == n.kind && e[9..k] == EncodeUintVar(|n.contact|)
            && e[k..m] == n.contact && e[m..m + 8] == n.longitude && e[m + 8..m + 16] == n.latitude
            && e[m + 16 + ITEM * i..m + 16 + ITEM * i + ITEM] == n.path[i]
  {
    PathAt(n.path, i);
    NodePlaces(n);
    var m := 9 + |EncodeUintVar(|n.contact|)| + |n.contact|;
    Within(EncodeNode(n), m + 16, ITEM * i, ITEM);
  }

  lemma NodePlaces(n: NodeInfo)
    requires NodeFits(n)
    ensures var e, k := EncodeNode(n), 9 + |EncodeUintVar(|n.contact|)|;
            var m := k + |n.contact|;
            && |e| == m + 16 + |EncodePath(n.path)|
            && e[0..8] == BE(n.id, 8) && e[8] == n.kind && e[9..k] == EncodeUintVar(|n.contact|)
            && e[k..m] == n.contact && e[m..m + 8] == n.longitude && e[m + 8..m + 16] == n.latitude
            && e[m + 16..] == EncodePath(n.path)
  {
    Laid(BE(n.id, 8), n.kind, EncodeUintVar(|n.contact|), n.contact, n.longitude, n.latitude, EncodePath(n.path));
  }

  lemma Laid(id: seq<byte>, kind: byte, len: seq<byte>, contact: seq<byte>, longitude: seq<byte>, latitude: seq<byte>,
             path: seq<byte>)
    requires |id| == 8 && |longitude| == 8 && |latitude| == 8
    ensures var e, k := id + ([kind] + (len + (contact + (longitude + (latitude + path))))), 9 + |len|;
            var m := k + |contact|;
            && |e| == m + 16 + |path|
            && e[0..8] == id && e[8] == kind && e[9..k] == len && e[k..m] == contact
            && e[m..m + 8] == longitude && e[m + 8..m + 16] == latitude && e[m + 16..] == path
  {
  }
}
