/** The record normalisation of the `/generate` handler, with its I/O left out: fields
    parsed from a supplier document are merged with `setdefault` (fields the caller
    sent win), the thirteen quote fields are then defaulted to "N.D.", and the output
    file name is derived when the caller gave none. */
module Request {
  import opened Text
  import Story

  type Record = Story.Record

  /** A `(key, value)` pair of a dict's `items()`, in iteration order. */
  type Entry = (string, string)

  /** The defaults dict, in its insertion order. */
  const DEFAULTS: seq<Entry> := [
    ("cliente_nome", "N.D."), ("piva_cf", "N.D."), ("sede", "N.D."), ("referente", "N.D."),
    ("marca_modello", "N.D."), ("versione", "N.D."), ("motore", "N.D."), ("neopatentati", "N.D."),
    ("consegna", "N.D."), ("durata", "N.D."), ("km_annui", "N.D."), ("anticipo", "N.D."),
    ("canone", "N.D.")]

  const MODEL_KEY: string := "marca_modello"

  function KeysOf(entries: seq<Entry>): set<string> {
    set i | 0 <= i < |entries| :: entries[i].0
  }

  /** `m.setdefault(e.0, e.1)`: the entry is added only when its key is missing, and
      nothing already there changes. */
  function SetDefault(m: Record, e: Entry): (r: Record)
    ensures r.Keys == m.Keys + {e.0}
    ensures forall k :: k in m ==> r[k] == m[k]
    ensures e.0 !in m ==> r[e.0] == e.1
  {
    if e.0 in m then m else m[e.0 := e.1]
  }

  /** The dict after `for k, v in entries: m.setdefault(k, v)`. */
  function SetDefaults(m: Record, entries: seq<Entry>): Record {
    if entries == [] then m
    else SetDefault(SetDefaults(m, entries[..|entries| - 1]), entries[|entries| - 1])
  }

  /** The loop over `setdefault`, updating the dict entry by entry. */
  method MergeDefaults(data: Record, entries: seq<Entry>) returns (merged: Record)
    ensures merged == SetDefaults(data, entries)
  {
    merged := data;
    for i := 0 to |entries|
      invariant merged == SetDefaults(data, entries[..i])
    {
      assert entries[..i + 1][..i] == entries[..i];
      var (k, v) := entries[i];
      if k !in merged {
        merged := merged[k := v];
      }
    }
    assert entries[..|entries|] == entries;
  }

  /** After the loop exactly the keys of `m` and of `entries` are present. */
  lemma {:induction false} SetDefaultsKeys(m: Record, entries: seq<Entry>)
    ensures SetDefaults(m, entries).Keys == m.Keys + KeysOf(entries)
  {
    if entries != [] {
      var n := |entries| - 1;
      var init := entries[..n];
      SetDefaultsKeys(m, init);
      assert KeysOf(entries) == KeysOf(init) + {entries[n].0} by {
        assert forall i :: 0 <= i < n ==> init[i] == entries[i];
      }
    }
  }

  /** Every key already present keeps its value: `setdefault` never overwrites. */
  lemma {:induction false} SetDefaultsKeepsExisting(m: Record, entries: seq<Entry>, k: string)
    requires k in m
    ensures k in SetDefaults(m, entries) && SetDefaults(m, entries)[k] == m[k]
  {
    if entries != [] {
      SetDefaultsKeepsExisting(m, entries[..|entries| - 1], k);
    }
  }

  /** A key that was missing takes the value of its first entry. */
  lemma {:induction false} SetDefaultsFirstWins(m: Record, entries: seq<Entry>, i: nat)
    requires i < |entries| && entries[i].0 !in m
    requires forall j :: 0 <= j < i ==> entries[j].0 != entries[i].0
    ensures entries[i].0 in SetDefaults(m, entries)
    ensures SetDefaults(m, entries)[entries[i].0] == entries[i].1
  {
    var n := |entries| - 1;
    var init := entries[..n];
    if i < n {
      assert init[i] == entries[i];
      SetDefaultsFirstWins(m, init, i);
      SetDefaultsKeepsExisting(SetDefaults(m, init), [entries[n]], entries[i].0);
      assert [entries[n]][..0] == [];
    } else {
      SetDefaultsKeys(m, init);
      assert entries[i].0 !in KeysOf(init) by {
        forall j | 0 <= j < n ensures init[j].0 != entries[i].0 {
          assert init[j] == entries[j];
        }
      }
    }
  }

  /** When every entry carries the same value `v`, every key the loop adds maps to `v`. */
  lemma {:induction false} SetDefaultsUniform(m: Record, entries: seq<Entry>, v: string)
    requires forall i :: 0 <= i < |entries| ==> entries[i].1 == v
    ensures forall k :: k in SetDefaults(m, entries) && k !in m ==> SetDefaults(m, entries)[k] == v
  {
    if entries != [] {
      SetDefaultsUniform(m, entries[..|entries| - 1], v);
    }
  }

  /** Entries whose keys are all present already change nothing. */
  lemma {:induction false} SetDefaultsPresent(m: Record, entries: seq<Entry>)
    requires KeysOf(entries) <= m.Keys
    ensures SetDefaults(m, entries) == m
  {
    if entries != [] {
      var init := entries[..|entries| - 1];
      assert KeysOf(init) <= KeysOf(entries) by {
        assert forall i :: 0 <= i < |init| ==> init[i] == entries[i];
      }
      SetDefaultsPresent(m, init);
      assert entries[|entries| - 1].0 in KeysOf(entries);
    }
  }

  /** Running the same `setdefault` loop twice is the same as running it once. */
  lemma SetDefaultsIdempotent(m: Record, entries: seq<Entry>)
    ensures SetDefaults(SetDefaults(m, entries), entries) == SetDefaults(m, entries)
  {
    SetDefaultsKeys(m, entries);
    SetDefaultsPresent(SetDefaults(m, entries), entries);
  }

  /** The record the handler renders: the caller's fields, then the supplier
      document's fields where the caller gave none, then the defaults. */
  function NormalizedRecord(data: Record, parsed: Option<seq<Entry>>): Record {
    SetDefaults(if parsed.Some? then SetDefaults(data, parsed.value) else data, DEFAULTS)
  }

  /** The two `setdefault` loops of the handler; `parsed` is None when no supplier
      document was uploaded. */
  method Normalize(data: Record, parsed: Option<seq<Entry>>) returns (record: Record)
    ensures record == NormalizedRecord(data, parsed)
    ensures forall k :: k in data ==> k in record && record[k] == data[k]
    ensures forall i :: 0 <= i < |DEFAULTS| ==> DEFAULTS[i].0 in record
    ensures record.Keys == data.Keys + (if parsed.Some? then KeysOf(parsed.value) else {}) + KeysOf(DEFAULTS)
  {
    record := data;
    if parsed.Some? {
      record := MergeDefaults(record, parsed.value);
      SetDefaultsKeys(data, parsed.value);
    }
    ghost var merged := record;
    record := MergeDefaults(record, DEFAULTS);
    SetDefaultsKeys(merged, DEFAULTS);
    assert forall i :: 0 <= i < |DEFAULTS| ==> DEFAULTS[i].0 in KeysOf(DEFAULTS);
    forall k | k in data
      ensures k in record && record[k] == data[k]
    {
      if parsed.Some? {
        SetDefaultsKeepsExisting(data, parsed.value, k);
      }
      SetDefaultsKeepsExisting(merged, DEFAULTS, k);
    }
  }

  /** Precedence of the three sources: a field the caller sent is never overridden, a
      parsed field fills a gap the caller left (the first parsed entry for a key
      wins), and a default fills only what both left, with "N.D.". */
  lemma NormalizePrecedence(data: Record, parsed: seq<Entry>)
    ensures var record := NormalizedRecord(data, Some(parsed));
      forall k :: k in data ==> k in record && record[k] == data[k]
    ensures var record := NormalizedRecord(data, Some(parsed));
      forall i :: 0 <= i < |parsed| && parsed[i].0 !in data
                  && (forall j :: 0 <= j < i ==> parsed[j].0 != parsed[i].0) ==>
        parsed[i].0 in record && record[parsed[i].0] == parsed[i].1
    ensures var record := NormalizedRecord(data, Some(parsed));
      forall k :: k in KeysOf(DEFAULTS) && k !in data && k !in KeysOf(parsed) ==>
        k in record && record[k] == Story.NOT_AVAILABLE
  {
    var merged := SetDefaults(data, parsed);
    var record := NormalizedRecord(data, Some(parsed));
    forall k | k in data
      ensures k in record && record[k] == data[k]
    {
      SetDefaultsKeepsExisting(data, parsed, k);
      SetDefaultsKeepsExisting(merged, DEFAULTS, k);
    }
    forall i | 0 <= i < |parsed| && parsed[i].0 !in data && (forall j :: 0 <= j < i ==> parsed[j].0 != parsed[i].0)
      ensures parsed[i].0 in record && record[parsed[i].0] == parsed[i].1
    {
      SetDefaultsFirstWins(data, parsed, i);
      SetDefaultsKeepsExisting(merged, DEFAULTS, parsed[i].0);
    }
    SetDefaultsKeys(data, parsed);
    SetDefaultsKeys(merged, DEFAULTS);
    SetDefaultsUniform(merged, DEFAULTS, Story.NOT_AVAILABLE);
  }

  /** After the defaults every key the story reads looks up the same text as before:
      present keys keep their value and the added ones hold the story's own fallback. */
  lemma DefaultsKeepLookups(merged: Record)
    ensures forall k :: k in Story.StoryKeys() ==>
      Story.Get(SetDefaults(merged, DEFAULTS), k, Story.NOT_AVAILABLE) == Story.Get(merged, k, Story.NOT_AVAILABLE)
  {
    var record := SetDefaults(merged, DEFAULTS);
    var keys := Story.StoryKeys();
    SetDefaultsKeys(merged, DEFAULTS);
    SetDefaultsUniform(merged, DEFAULTS, Story.NOT_AVAILABLE);
    assert forall i :: 0 <= i < |DEFAULTS| ==> DEFAULTS[i].0 == keys[i];
    forall k | k in keys
      ensures Story.Get(record, k, Story.NOT_AVAILABLE) == Story.Get(merged, k, Story.NOT_AVAILABLE)
    {
      if k in merged {
        SetDefaultsKeepsExisting(merged, DEFAULTS, k);
      } else {
        var i :| 0 <= i < |keys| && keys[i] == k;
        assert DEFAULTS[i].0 in KeysOf(DEFAULTS);
      }
    }
  }

  /** The defaults are invisible in the story: they set exactly the keys the story
      reads, to the same "N.D." the story falls back on. */
  lemma DefaultsDoNotChangeStory(merged: Record, photo: Option<string>, photoExists: bool, h: real)
    ensures Story.StorySpec(SetDefaults(merged, DEFAULTS), photo, photoExists, h)
         == Story.StorySpec(merged, photo, photoExists, h)
  {
    DefaultsKeepLookups(merged);
    Story.StoryReadsOnlyLookups(SetDefaults(merged, DEFAULTS), merged, photo, photoExists, h);
  }

  // ---------------------------------------------------------------------------
  // The output file name

  const NAME_PREFIX: string := "Preventivo_Larini_"
  /** The name's model part when the record has no model. */
  const MODEL_FALLBACK: string := "Modello"

  /** The download's file name: the caller's `output_name` unless it is missing or
      empty, else "Preventivo_Larini_<model>_<date>.pdf" with the spaces of the
      model turned into underscores; `date` is the UTC date in ISO form. */
  function OutputName(requested: Option<string>, data: Record, date: string): string {
    if requested.Some? && requested.value != "" then requested.value
    else NAME_PREFIX + ReplaceSpaces(Story.Get(data, MODEL_KEY, MODEL_FALLBACK)) + "_" + date + ".pdf"
  }

  /** A derived name starts with the fixed prefix, ends with "_", the date and
      ".pdf", and its model part is the model with no space left in it. */
  lemma OutputNameShape(requested: Option<string>, data: Record, date: string)
    ensures requested.Some? && requested.value != "" ==> OutputName(requested, data, date) == requested.value
    ensures !(requested.Some? && requested.value != "") ==>
      var name := OutputName(requested, data, date);
      var model := Story.Get(data, MODEL_KEY, MODEL_FALLBACK);
      && |name| == |NAME_PREFIX| + |model| + 1 + |date| + 4
      && name[..|NAME_PREFIX|] == NAME_PREFIX
      && name[|NAME_PREFIX|..|NAME_PREFIX| + |model|] == ReplaceSpaces(model)
      && ' ' !in name[|NAME_PREFIX|..|NAME_PREFIX| + |model|]
      && name[|NAME_PREFIX| + |model|..] == "_" + date + ".pdf"
  {
    if !(requested.Some? && requested.value != "") {
      var model := Story.Get(data, MODEL_KEY, MODEL_FALLBACK);
      var part := ReplaceSpaces(model);
      var tail := "_" + date + ".pdf";
      assert OutputName(requested, data, date) == NAME_PREFIX + part + tail;
      SliceOfConcat(NAME_PREFIX, part, tail);
      ReplaceSpacesClears(model);
    }
  }

  lemma SliceOfConcat(a: string, b: string, c: string)
    ensures |a + b + c| == |a| + |b| + |c|
    ensures (a + b + c)[..|a|] == a
    ensures (a + b + c)[|a|..|a| + |b|] == b
    ensures (a + b + c)[|a| + |b|..] == c
  {
    var s := a + b + c;
    assert s[..|a|] == a;
    assert s[|a|..|a| + |b|] == b;
    assert s[|a| + |b|..] == c;
  }

  /** After normalisation the model is always present, so the "Modello" fallback of
      the name is never used: a quote with no model anywhere is named after "N.D.". */
  lemma OutputNameAfterNormalize(data: Record, parsed: Option<seq<Entry>>, date: string)
    ensures MODEL_KEY in NormalizedRecord(data, parsed)
    ensures OutputName(None, NormalizedRecord(data, parsed), date)
         == NAME_PREFIX + ReplaceSpaces(NormalizedRecord(data, parsed)[MODEL_KEY]) + "_" + date + ".pdf"
    ensures MODEL_KEY !in data && (parsed.None? || MODEL_KEY !in KeysOf(parsed.value)) ==>
      OutputName(None, NormalizedRecord(data, parsed), date) == NAME_PREFIX + "N.D._" + date + ".pdf"
  {
    var merged := if parsed.Some? then SetDefaults(data, parsed.value) else data;
    ModelAlwaysPresent(merged);
    if MODEL_KEY !in data && (parsed.None? || MODEL_KEY !in KeysOf(parsed.value)) {
      if parsed.Some? {
        SetDefaultsKeys(data, parsed.value);
      }
      assert MODEL_KEY !in merged;
      ReplaceSpacesClears(Story.NOT_AVAILABLE);
      assert NAME_PREFIX + "N.D." + "_" + date + ".pdf" == NAME_PREFIX + "N.D._" + date + ".pdf";
    }
  }

  /** The defaults always supply the model, with "N.D." when it was missing. */
  lemma ModelAlwaysPresent(merged: Record)
    ensures MODEL_KEY in SetDefaults(merged, DEFAULTS)
    ensures MODEL_KEY !in merged ==> SetDefaults(merged, DEFAULTS)[MODEL_KEY] == Story.NOT_AVAILABLE
  {
    SetDefaultsKeys(merged, DEFAULTS);
    assert DEFAULTS[4].0 == MODEL_KEY;
    assert MODEL_KEY in KeysOf(DEFAULTS);
    SetDefaultsUniform(merged, DEFAULTS, Story.NOT_AVAILABLE);
  }
}
