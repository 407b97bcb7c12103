/** The records shared by the front end and the edge handler (types.ts,
    constants.ts), and `Array.prototype.find`, which the front end uses for
    every lookup. */
module Types {

  datatype Option<T> = None | Some(value: T)

  /** Who wrote a chat message. */
  datatype Sender = User | AI

  /** One chat message. `id` is the millisecond clock reading the front end
      stamps it with; the model only copies it. */
  datatype Message = Message(id: nat, text: string, sender: Sender, feedback: Option<string>)

  /** A practice language: a BCP 47 tag such as "en-US" and a display name. */
  datatype Language = Language(code: string, name: string)

  datatype Difficulty = Beginner | Intermediate | Advanced {
    /** The enum's string value, which is what travels in requests and selects. */
    function Value(): string {
      match this
      case Beginner => "Beginner"
      case Intermediate => "Intermediate"
      case Advanced => "Advanced"
    }
  }

  datatype ConversationPartner = Teacher | Friend | Colleague {
    /** The enum's string value, which is what travels in requests. */
    function Value(): string {
      match this
      case Teacher => "Strict Teacher"
      case Friend => "Funny Friend"
      case Colleague => "Fine Colleague"
    }
  }

  /** A platform speech-synthesis voice: its name, its BCP 47 tag and whether
      it is the platform default. */
  datatype Voice = Voice(name: string, lang: string, isDefault: bool)

  const LANGUAGES: seq<Language> := [
    Language("en-US", "English (US)"),
    Language("es-ES", "Spanish"),
    Language("fr-FR", "French"),
    Language("de-DE", "German"),
    Language("it-IT", "Italian"),
    Language("ja-JP", "Japanese")
  ]

  const DIFFICULTIES: seq<Difficulty> := [Beginner, Intermediate, Advanced]

  /** `s.findIndex(p)` as an option: the first index whose element satisfies `p`. */
  function FirstIndex<T>(s: seq<T>, p: T -> bool): (r: Option<nat>)
    ensures r.Some? ==> r.value < |s| && p(s[r.value])
    ensures r.Some? ==> forall j :: 0 <= j < r.value ==> !p(s[j])
    ensures r.None? <==> forall j :: 0 <= j < |s| ==> !p(s[j])
  {
    FirstIndexFrom(s, p, 0)
  }

  function FirstIndexFrom<T>(s: seq<T>, p: T -> bool, from: nat): (r: Option<nat>)
    requires from <= |s|
    ensures r.Some? ==> from <= r.value < |s| && p(s[r.value])
    ensures r.Some? ==> forall j :: from <= j < r.value ==> !p(s[j])
    ensures r.None? <==> forall j :: from <= j < |s| ==> !p(s[j])
    decreases |s| - from
  {
    if from == |s| then None
    else if p(s[from]) then Some(from)
    else FirstIndexFrom(s, p, from + 1)
  }

  /** `s.find(p)`: the first element satisfying `p`, or nothing when none does. */
  function Find<T>(s: seq<T>, p: T -> bool): (r: Option<T>)
    ensures r.Some? ==> exists k :: 0 <= k < |s| && s[k] == r.value && p(s[k]) && forall j :: 0 <= j < k ==> !p(s[j])
    ensures r.None? <==> forall j :: 0 <= j < |s| ==> !p(s[j])
  {
    match FirstIndex(s, p)
    case None => None
    case Some(k) => Some(s[k])
  }
}
