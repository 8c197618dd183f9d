/** The sound extension's hint writes: a nil hint map is first allocated, then
    one string-valued hint is stored, using the `sound-name` and `sound-file`
    hints of the Desktop Notifications specification. */
module SoundHints {
  import opened Bus

  const SoundNameHint := "sound-name"
  const SoundFileHint := "sound-file"

  /** The entries of a hint map; a nil map reads as empty. */
  function Entries(h: Hints): map<string, Variant>
  {
    match h
    case None => map[]
    case Some(m) => m
  }

  /** The hint map after storing `v` under `key`: the key now holds `v`, and
      every other entry is exactly as before. */
  function PutHint(h: Hints, key: string, v: Variant): (r: map<string, Variant>)
    ensures key in r && r[key] == v
    ensures r.Keys == Entries(h).Keys + {key}
    ensures forall k :: k in Entries(h) && k != key ==> r[k] == Entries(h)[k]
  {
    Entries(h)[key := v]
  }

  /** Writing into a nil map leaves exactly the one new entry. */
  lemma PutHintIntoNil(key: string, v: Variant)
    ensures PutHint(None, key, v) == map[key := v]
    ensures |PutHint(None, key, v)| == 1
  {
  }

  /** Storing the same value twice is the same as storing it once. */
  lemma PutHintIdempotent(h: Hints, key: string, v: Variant)
    ensures PutHint(Some(PutHint(h, key, v)), key, v) == PutHint(h, key, v)
  {
  }

  /** A later write to a key replaces the earlier one. */
  lemma PutHintOverwrites(h: Hints, key: string, v: Variant, w: Variant)
    ensures PutHint(Some(PutHint(h, key, v)), key, w) == PutHint(h, key, w)
  {
  }

  /** The two sound hints are different keys, so writing one never changes the
      other, and the two writes can come in either order. */
  lemma SoundHintsDisjoint(h: Hints, name: string, path: string)
    ensures SoundNameHint != SoundFileHint
    ensures var r := PutHint(h, SoundNameHint, VString(name));
      (SoundFileHint in r <==> SoundFileHint in Entries(h))
      && (SoundFileHint in r ==> r[SoundFileHint] == Entries(h)[SoundFileHint])
    ensures var r := PutHint(h, SoundFileHint, VString(path));
      (SoundNameHint in r <==> SoundNameHint in Entries(h))
      && (SoundNameHint in r ==> r[SoundNameHint] == Entries(h)[SoundNameHint])
    ensures PutHint(Some(PutHint(h, SoundNameHint, VString(name))), SoundFileHint, VString(path))
         == PutHint(Some(PutHint(h, SoundFileHint, VString(path))), SoundNameHint, VString(name))
  {
    assert SoundNameHint[6] != SoundFileHint[6];
  }
}
