/** The settings sidebar (components/SettingsPanel.tsx): how the values of its
    `<select>` controls map back to languages, difficulties and voices, and how
    the voice control is displayed. */
module Settings {
  import opened Types
  import Conversation

  /** `handleLangChange`: the language of `LANGUAGES` whose code is the selected
      value; none for a value no option carries (the handler then does nothing). */
  function LanguageForCode(value: string): (r: Option<Language>)
    ensures r.Some? ==> r.value in LANGUAGES && r.value.code == value
    ensures r.None? <==> forall i :: 0 <= i < |LANGUAGES| ==> LANGUAGES[i].code != value
  {
    Find(LANGUAGES, (l: Language) => l.code == value)
  }

  /** The language codes are pairwise distinct. */
  lemma LanguageCodesDistinct()
    ensures forall i, j :: 0 <= i < j < |LANGUAGES| ==> LANGUAGES[i].code != LANGUAGES[j].code
  {
    var codes := seq(|LANGUAGES|, i requires 0 <= i < |LANGUAGES| => LANGUAGES[i].code);
    assert codes == ["en-US", "es-ES", "fr-FR", "de-DE", "it-IT", "ja-JP"];
    var heads := seq(|codes|, i requires 0 <= i < |codes| => [codes[i][0], codes[i][1]]);
    assert heads == ["en", "es", "fr", "de", "it", "ja"];
    forall i, j | 0 <= i < j < |LANGUAGES| ensures codes[i] != codes[j] {
      assert heads[i] != heads[j];
    }
  }

  /** Every option of the language select leads back to its own language. */
  lemma LanguageRoundTrip(l: Language)
    requires l in LANGUAGES
    ensures LanguageForCode(l.code) == Some(l)
  {
    LanguageCodesDistinct();
    var r := LanguageForCode(l.code);
    var k :| 0 <= k < |LANGUAGES| && LANGUAGES[k] == r.value && LANGUAGES[k].code == l.code;
    var i :| 0 <= i < |LANGUAGES| && LANGUAGES[i] == l;
    assert i == k;
  }

  /** `handleDiffChange`: the select's value is cast to a difficulty unchecked;
      the options carry exactly the difficulties' values. */
  function DifficultyForValue(value: string): (d: Difficulty)
    requires exists i :: 0 <= i < |DIFFICULTIES| && DIFFICULTIES[i].Value() == value
    ensures d.Value() == value && d in DIFFICULTIES
  {
    if value == "Beginner" then Beginner
    else if value == "Intermediate" then Intermediate
    else Advanced
  }

  /** Every option of the difficulty select leads back to its own difficulty. */
  lemma DifficultyRoundTrip(d: Difficulty)
    ensures var value := d.Value();
      (exists i :: 0 <= i < |DIFFICULTIES| && DIFFICULTIES[i].Value() == value) &&
      DifficultyForValue(value) == d
  {
    assert DIFFICULTIES[0] == Beginner && DIFFICULTIES[1] == Intermediate && DIFFICULTIES[2] == Advanced;
    assert DIFFICULTIES[if d == Beginner then 0 else if d == Intermediate then 1 else 2].Value() == d.Value();
    assert "Beginner"[0] == 'B' && "Intermediate"[0] == 'I' && "Advanced"[0] == 'A';
  }

  /** `handleVoiceChange`: the first voice offered whose name is the selected
      value, or none (`null`) when no voice carries it. */
  function VoiceForName(voices: seq<Voice>, value: string): (r: Option<Voice>)
    ensures r.Some? ==> r.value in voices && r.value.name == value
    ensures r.None? <==> forall i :: 0 <= i < |voices| ==> voices[i].name != value
  {
    Find(voices, (v: Voice) => v.name == value)
  }

  /** The voice select's value: the selected voice's name, or the empty string. */
  function VoiceSelectValue(selected: Option<Voice>): (value: string)
    ensures selected.Some? ==> value == selected.value.name
    ensures selected.None? ==> value == ""
  {
    match selected
    case None => ""
    case Some(v) => v.name
  }

  /** The voice select is disabled exactly when no voice is offered, that is,
      exactly when the app has no voice to prefer among those offered. */
  function VoiceSelectDisabled(voices: seq<Voice>): (disabled: bool)
    ensures disabled <==> voices == []
    ensures disabled <==> Conversation.PreferredVoice(voices).None?
  {
    |voices| == 0
  }

  /** Voice names are pairwise distinct. */
  predicate UniqueNames(voices: seq<Voice>) {
    forall i, j :: 0 <= i < j < |voices| ==> voices[i].name != voices[j].name
  }

  /** With distinct names, picking the option the select shows for a voice
      selects that voice again. */
  lemma VoiceRoundTrip(voices: seq<Voice>, v: Voice)
    requires UniqueNames(voices) && v in voices
    ensures VoiceForName(voices, VoiceSelectValue(Some(v))) == Some(v)
  {
    var r := VoiceForName(voices, v.name);
    var k :| 0 <= k < |voices| && voices[k] == r.value && voices[k].name == v.name && forall j :: 0 <= j < k ==> voices[j].name != v.name;
    var i :| 0 <= i < |voices| && voices[i] == v;
    assert i == k;
  }
}
