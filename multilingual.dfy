/** Multilingual generation (backend/app/services/ai_services.py, `generate_multilingual`):
    for each requested language whose lower-case name is one of the five supported
    ones, the translation of that language is stored under the name as the caller
    spelled it. The "translations" are fixed templates around the first 50
    characters of the content. The dictionary logic is stated over any table of
    languages; the service's own table is `Table`. */
module Multilingual {
  import opened Common
  import opened Text

  /** One row of the `translations` table: the language's key and the pieces of its
      simulated translation. */
  datatype Entry = Entry(name: string, marker: string, hashtags: seq<string>, notes: string)

  const Table: seq<Entry> := [
    Entry("spanish", "Contenido traducido al espa\U{00F1}ol",
      ["#RedesSociales", "#Marketing", "#Contenido"],
      "Consider using 'vosotros' for Spain, 'ustedes' for Latin America"),
    Entry("french", "Contenu traduit en fran\U{00E7}ais",
      ["#R\U{00E9}seauxSociaux", "#Marketing", "#Contenu"],
      "Use formal 'vous' for professional content"),
    Entry("german", "Ins Deutsche \U{00FC}bersetzter Inhalt",
      ["#SocialMedia", "#Marketing", "#Inhalt"],
      "Germans prefer direct, factual communication"),
    Entry("portuguese", "Conte\U{00FA}do traduzido para portugu\U{00EA}s",
      ["#RedesSociais", "#Marketing", "#Conte\U{00FA}do"],
      "Consider Brazilian vs European Portuguese differences"),
    Entry("japanese", "\U{65E5}\U{672C}\U{8A9E}\U{306B}\U{7FFB}\U{8A33}\U{3055}\U{308C}\U{305F}\U{30B3}\U{30F3}\U{30C6}\U{30F3}\U{30C4}",
      ["#\U{30BD}\U{30FC}\U{30B7}\U{30E3}\U{30EB}\U{30E1}\U{30C7}\U{30A3}\U{30A2}",
       "#\U{30DE}\U{30FC}\U{30B1}\U{30C6}\U{30A3}\U{30F3}\U{30B0}"],
      "Use polite/formal language (\U{656C}\U{8A9E}) for business content")]

  const SupportedLanguages: seq<string> := ["spanish", "french", "german", "portuguese", "japanese"]

  /** `list(translations.keys())`. */
  function Names(table: seq<Entry>): (ns: seq<string>)
    ensures |ns| == |table|
    ensures forall i :: 0 <= i < |table| ==> ns[i] == table[i].name
  {
    if table == [] then [] else [table[0].name] + Names(table[1..])
  }

  /** The table's keys are the five supported languages. */
  lemma TableNames()
    ensures Names(Table) == SupportedLanguages
  {
  }

  /** `translations[name]`, if the key is present. */
  function Lookup(table: seq<Entry>, name: string): (e: Option<Entry>)
    ensures e.Some? <==> name in Names(table)
    ensures e.Some? ==> e.value in table && e.value.name == name
  {
    if table == [] then None
    else if table[0].name == name then Some(table[0])
    else Lookup(table[1..], name)
  }

  datatype Translation = Translation(text: string, hashtags: seq<string>, notes: string)

  /** The start of every translated text: a star, the first 50 characters, an ellipsis. */
  function Lead(content: string): string
  {
    "\U{1F31F} " + Take(content, 50) + "... ["
  }

  /** An entry's translation of `content`: the lead, then the bracketed marker. */
  function TranslationOf(e: Entry, content: string): (t: Translation)
    ensures IsPrefix(Lead(content), t.text)
    ensures t.hashtags == e.hashtags && t.notes == e.notes
  {
    Translation(Lead(content) + e.marker + "]", e.hashtags, e.notes)
  }

  /** A Python dictionary with string keys: its entries in insertion order. */
  type Dict = seq<(string, Translation)>

  function Keys(d: Dict): (ks: seq<string>)
    ensures |ks| == |d|
    ensures forall i :: 0 <= i < |d| ==> ks[i] == d[i].0
  {
    if d == [] then [] else [d[0].0] + Keys(d[1..])
  }

  predicate NoDuplicates(ks: seq<string>)
  {
    forall i, j :: 0 <= i < j < |ks| ==> ks[i] != ks[j]
  }

  /** `d[k] = v`: an existing key keeps its place and takes the new value; a new key
      goes at the end. */
  function DictSet(d: Dict, k: string, v: Translation): (r: Dict)
    ensures k in Keys(d) ==> Keys(r) == Keys(d)
    ensures k !in Keys(d) ==> Keys(r) == Keys(d) + [k]
    ensures forall i :: 0 <= i < |r| ==> r[i] in d || r[i] == (k, v)
  {
    if d == [] then [(k, v)]
    else if d[0].0 == k then [(k, v)] + d[1..]
    else [d[0]] + DictSet(d[1..], k, v)
  }

  /** `if not target_languages`: a missing or empty request means all five. */
  function TargetsOrAll(targets: Option<seq<string>>): (ls: seq<string>)
    ensures ls != []
    ensures targets.Some? && targets.value != [] ==> ls == targets.value
    ensures targets.None? || targets.value == [] ==> ls == SupportedLanguages
  {
    if targets.None? || targets.value == [] then SupportedLanguages else targets.value
  }

  /** The `translations` dictionary after the requests `langs`, in order. */
  function Fill(table: seq<Entry>, langs: seq<string>, content: string): Dict
  {
    if langs == [] then []
    else
      var d := Fill(table, langs[..|langs| - 1], content);
      var lang := langs[|langs| - 1];
      var e := Lookup(table, AsciiLower(lang));
      if e.Some? then DictSet(d, lang, TranslationOf(e.value, content)) else d
  }

  /** The keys are exactly the requested names whose lower-case form is in the table. */
  lemma {:induction false} FillKeys(table: seq<Entry>, langs: seq<string>, content: string, k: string)
    ensures k in Keys(Fill(table, langs, content)) <==> k in langs && AsciiLower(k) in Names(table)
  {
    if langs != [] {
      var init, lang := langs[..|langs| - 1], langs[|langs| - 1];
      assert langs == init + [lang];
      FillKeys(table, init, content, k);
    }
  }

  /** `FillKeys` for every name at once. */
  lemma FillKeysAll(table: seq<Entry>, langs: seq<string>, content: string)
    ensures forall k :: k in Keys(Fill(table, langs, content)) <==> k in langs && AsciiLower(k) in Names(table)
  {
    forall k ensures k in Keys(Fill(table, langs, content)) <==> k in langs && AsciiLower(k) in Names(table) {
      FillKeys(table, langs, content, k);
    }
  }

  lemma DictSetNoDuplicates(d: Dict, k: string, v: Translation)
    requires NoDuplicates(Keys(d))
    ensures NoDuplicates(Keys(DictSet(d, k, v)))
  {
    if k !in Keys(d) {
      var ks := Keys(d) + [k];
      forall i, j | 0 <= i < j < |ks| ensures ks[i] != ks[j] {
        if j == |ks| - 1 {
          assert ks[i] in Keys(d);
        }
      }
    }
  }

  /** No name appears twice among the keys. */
  lemma {:induction false} FillNoDuplicates(table: seq<Entry>, langs: seq<string>, content: string)
    ensures NoDuplicates(Keys(Fill(table, langs, content)))
  {
    if langs != [] {
      var init := langs[..|langs| - 1];
      FillNoDuplicates(table, init, content);
      var lang := langs[|langs| - 1];
      var e := Lookup(table, AsciiLower(lang));
      if e.Some? {
        DictSetNoDuplicates(Fill(table, init, content), lang, TranslationOf(e.value, content));
      }
    }
  }

  /** Every key holds the translation of the table entry of its lower-case name. */
  lemma {:induction false} FillValues(table: seq<Entry>, langs: seq<string>, content: string)
    ensures forall i :: 0 <= i < |Fill(table, langs, content)| ==>
              var kv := Fill(table, langs, content)[i];
              var e := Lookup(table, AsciiLower(kv.0));
              e.Some? && kv.1 == TranslationOf(e.value, content)
  {
    if langs != [] {
      var init := langs[..|langs| - 1];
      FillValues(table, init, content);
    }
  }

  /** A list of distinct names that are all in the table yields one key per name, in
      the order asked. */
  lemma {:induction false} FillDistinctSupported(table: seq<Entry>, langs: seq<string>, content: string)
    requires NoDuplicates(langs)
    requires forall i :: 0 <= i < |langs| ==> AsciiLower(langs[i]) in Names(table)
    ensures Keys(Fill(table, langs, content)) == langs
  {
    if langs != [] {
      var init, lang := langs[..|langs| - 1], langs[|langs| - 1];
      assert langs == init + [lang];
      assert forall i :: 0 <= i < |init| ==> init[i] == langs[i];
      FillDistinctSupported(table, init, content);
      var d := Fill(table, init, content);
      assert lang !in Keys(d);
      var e := Lookup(table, AsciiLower(lang));
      assert e.Some?;
      var t := TranslationOf(e.value, content);
      assert Fill(table, langs, content) == DictSet(d, lang, t);
      assert Keys(DictSet(d, lang, t)) == Keys(d) + [lang];
    }
  }

  /** Names with pairwise different first letters are distinct. */
  lemma DistinctInitials(ks: seq<string>)
    requires forall i :: 0 <= i < |ks| ==> ks[i] != []
    requires forall i, j :: 0 <= i < j < |ks| ==> ks[i][0] != ks[j][0]
    ensures NoDuplicates(ks)
  {
  }

  /** Names made of lower-case ASCII letters are their own lower-case forms. */
  lemma LowerNames(ks: seq<string>)
    requires forall i, k :: 0 <= i < |ks| && 0 <= k < |ks[i]| ==> 'a' <= ks[i][k] <= 'z'
    ensures forall i :: 0 <= i < |ks| ==> AsciiLower(ks[i]) == ks[i]
  {
    forall i | 0 <= i < |ks| ensures AsciiLower(ks[i]) == ks[i] {
      AsciiLowerOfLower(ks[i]);
    }
  }

  /** The five keys are distinct. */
  lemma TableKeysDistinct()
    ensures NoDuplicates(SupportedLanguages)
  {
    DistinctInitials(SupportedLanguages);
  }

  /** The five keys are already lower case. */
  lemma TableKeysLower()
    ensures forall i :: 0 <= i < |SupportedLanguages| ==> AsciiLower(SupportedLanguages[i]) == SupportedLanguages[i]
  {
    LowerNames(SupportedLanguages);
  }

  /** The default request (all five) yields all five keys, in table order. */
  lemma DefaultTargets(content: string)
    ensures Keys(Fill(Table, SupportedLanguages, content)) == SupportedLanguages
  {
    TableNames();
    TableKeysDistinct();
    TableKeysLower();
    FillDistinctSupported(Table, SupportedLanguages, content);
  }

  /** The loop of `generate_multilingual`, over the requests `langs`. */
  method FillTranslations(table: seq<Entry>, langs: seq<string>, content: string)
    returns (translations: Dict)
    ensures translations == Fill(table, langs, content)
  {
    translations := [];
    var i := 0;
    while i < |langs|
      invariant 0 <= i <= |langs|
      invariant translations == Fill(table, langs[..i], content)
    {
      var lang := langs[i];
      assert langs[..i + 1][..i] == langs[..i];
      var e := Lookup(table, AsciiLower(lang));
      if e.Some? {
        translations := DictSet(translations, lang, TranslationOf(e.value, content));
      }
      i := i + 1;
    }
    assert langs[..i] == langs;
  }

  const LocalizationTips: seq<string> := [
    "Adjust posting times for each region's timezone",
    "Use region-specific hashtags for better reach",
    "Consider cultural events and holidays"]

  datatype Result = Result(original: string, originalLanguage: string, translations: Dict,
                           supportedLanguages: seq<string>, localizationTips: seq<string>)

  /** `generate_multilingual`: the translations dictionary holds exactly the requested
      names whose lower-case form is supported, each once, in the caller's spelling. */
  method GenerateMultilingual(content: string, targets: Option<seq<string>>) returns (r: Result)
    ensures r.translations == Fill(Table, TargetsOrAll(targets), content)
    ensures forall k :: k in Keys(r.translations) <==>
              k in TargetsOrAll(targets) && AsciiLower(k) in SupportedLanguages
    ensures NoDuplicates(Keys(r.translations))
    ensures r.original == content && r.originalLanguage == "english"
    ensures r.supportedLanguages == SupportedLanguages && r.localizationTips == LocalizationTips
  {
    var langs := TargetsOrAll(targets);
    var translations := FillTranslations(Table, langs, content);
    TableNames();
    FillKeysAll(Table, langs, content);
    FillNoDuplicates(Table, langs, content);
    r := Result(content, "english", translations, SupportedLanguages, LocalizationTips);
  }
}
