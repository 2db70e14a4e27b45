/**
 * The libraries the transfer engine calls, as an arbitrary record of functions:
 * SHA-256 digests, the zstd codec, and the JSON forms of the envelope and the config.
 * Nothing is known of them beyond what Lawful states.
 */
module World {
  import opened Sequences
  import opened Manifest

  datatype World = World(
    digest: Bytes -> string,
    encodeAll: (int, Bytes) -> Bytes,
    encodeStream: (int, Bytes) -> Bytes,
    decode: Bytes -> Option<Bytes>,
    envelope: Bytes -> Option<Bytes>,
    rename: (Bytes, string) -> Bytes,
    configText: SnapshotConfig -> Bytes,
    parseConfig: Bytes -> Option<SnapshotConfig>)
  {
    /** Distinct contents have distinct digests. */
    ghost predicate DigestInjective() {
      forall a: Bytes, b: Bytes {:trigger digest(a), digest(b)} :: digest(a) == digest(b) ==> a == b
    }

    /** Both encoders produce frames that decode to their input. */
    ghost predicate DecodeInvertsEncode() {
      && (forall level: int, x: Bytes {:trigger encodeAll(level, x)} :: decode(encodeAll(level, x)) == Some(x))
      && (forall level: int, x: Bytes {:trigger encodeStream(level, x)} :: decode(encodeStream(level, x)) == Some(x))
    }

    /** Concatenated frames decode to the concatenation of their contents (section 3.1 of RFC 8878). */
    ghost predicate DecodeConcatenates() {
      forall a: Bytes, b: Bytes {:trigger decode(a + b)} ::
        decode(a).Some? && decode(b).Some? ==> decode(a + b) == Some(decode(a).value + decode(b).value)
    }

    /** The config text parses back to the config. */
    ghost predicate ConfigTextParses() {
      forall c: SnapshotConfig {:trigger configText(c)} :: parseConfig(configText(c)) == Some(c)
    }

    ghost predicate Lawful() {
      && DigestInjective()
      && DecodeInvertsEncode()
      && DecodeConcatenates()
      && ConfigTextParses()
    }
  }

  /** A registry's blobs by digest. */
  type Store = map<string, Bytes>

  /** Every blob sits under its own digest; digest-verified uploads and downloads keep this. */
  ghost predicate ContentAddressed(w: World, store: Store) {
    forall d: string :: d in store ==> w.digest(store[d]) == d
  }

  /** No blob was deleted or replaced on the way from one state of the registry to another. */
  ghost predicate Keeps(before: Store, after: Store) {
    forall d: string :: d in before ==> d in after && after[d] == before[d]
  }

  /** If every part decodes, the concatenation of the parts decodes to the concatenation of their contents. */
  lemma {:induction false} DecodeOfFlatten(w: World, stored: seq<Bytes>, plain: seq<Bytes>)
    requires w.DecodeConcatenates()
    requires |stored| == |plain| && stored != []
    requires forall i :: 0 <= i < |stored| ==> w.decode(stored[i]) == Some(plain[i])
    ensures w.decode(Flatten(stored)) == Some(Flatten(plain))
  {
    if |stored| == 1 {
      assert Flatten(stored) == stored[0] + Flatten(stored[1..]) == stored[0];
      assert Flatten(plain) == plain[0] + Flatten(plain[1..]) == plain[0];
    } else {
      DecodeOfFlatten(w, stored[1..], plain[1..]);
      assert w.decode(stored[0] + Flatten(stored[1..])) == Some(plain[0] + Flatten(plain[1..]));
    }
  }
}
