/**
 * The page around the message card: the request state (loading flag, error
 * text, current animation data) driven by the animate handler, and the small
 * selectors that derive the suggested text, the orbit decoration and the tag
 * list from it. The HTTP request itself is an input: its outcome is given.
 */
module App {
  import opened Payload

  /** How the request to the generation service ended. */
  datatype FetchOutcome =
    | Parsed(json: AnimationData)   // an ok response whose body parsed
    | NotOk                         // a response with a non-2xx status
    | Threw(message: string)        // the request or the body parse threw; "" when it had no message

  /** The page's request-related state. */
  datatype RequestState = RequestState(loading: bool, error: string, data: AnimationData)

  const FailedMessage: string := "Failed to generate animation"
  const FallbackMessage: string := "Something went wrong"

  const InitialData: AnimationData := AnimationData(Some([]), Some(DefaultTheme), Some(""), Some([]), Some([]))
  const InitialState: RequestState := RequestState(false, "", InitialData)

  /** The handler starts: loading is on and the previous error is cleared; the data stays. */
  function Begin(s: RequestState): (r: RequestState)
    ensures r.loading && r.error == "" && r.data == s.data
  {
    RequestState(true, "", s.data)
  }

  /** The message of the error the handler catches, after the `|| 'Something went wrong'` fallback. */
  function ErrorText(o: FetchOutcome): (e: string)
    requires !o.Parsed?
    ensures e != ""
    ensures o.NotOk? ==> e == FailedMessage
    ensures o.Threw? && o.message != "" ==> e == o.message
    ensures o.Threw? && o.message == "" ==> e == FallbackMessage
  {
    match o
    case NotOk => FailedMessage
    case Threw(m) => if m != "" then m else FallbackMessage
  }

  /** The handler finishes: the try, catch and finally blocks applied to the outcome. */
  function Finish(s: RequestState, o: FetchOutcome): (r: RequestState)
    ensures !r.loading
    ensures o.Parsed? ==> r.data == o.json && r.error == s.error
    ensures !o.Parsed? ==> r.data == s.data && r.error == ErrorText(o)
  {
    match o
    case Parsed(json) => RequestState(false, s.error, json)
    case _ => RequestState(false, ErrorText(o), s.data)
  }

  /**
   * One whole run of the handler. It always ends with loading off; it ends
   * without an error exactly when the response was ok and parsed, in which
   * case the data is the new payload; otherwise the data is the old one.
   */
  function HandleAnimate(s: RequestState, o: FetchOutcome): (r: RequestState)
    ensures !r.loading
    ensures r.error == "" <==> o.Parsed?
    ensures o.Parsed? ==> r.data == o.json
    ensures !o.Parsed? ==> r.data == s.data && r.error == ErrorText(o)
  {
    Finish(Begin(s), o)
  }

  /** The page as a stateful object: the three request fields and the message being edited. */
  class Page {
    var loading: bool
    var error: string
    var data: AnimationData
    var input: string

    function State(): RequestState
      reads this
    {
      RequestState(loading, error, data)
    }

    /** The page mounts with empty data, no error and nothing loading. */
    constructor (initialInput: string)
      ensures State() == InitialState && input == initialInput
    {
      loading := false;
      error := "";
      data := InitialData;
      input := initialInput;
    }

    /** The first, synchronous part of the handler, before the request is answered. */
    method StartRequest()
      modifies this`loading, this`error
      ensures State() == Begin(old(State()))
    {
      loading := true;
      error := "";
    }

    /** The rest of the handler, once the request has an outcome. */
    method CompleteRequest(o: FetchOutcome)
      modifies this`loading, this`error, this`data
      ensures State() == Finish(old(State()), o)
    {
      match o {
        case Parsed(json) =>
          data := json;
        case _ =>
          error := ErrorText(o);
      }
      loading := false;
    }

    /** A mood button replaces the message being edited with that mood's suggested text. */
    method PickMood(mood: string)
      modifies this`input
      ensures input == MoodText(mood)
    {
      input := MoodText(mood);
    }
  }

  /** A complete handler run on the page is the pure handler on its state. */
  method Animate(page: Page, o: FetchOutcome)
    modifies page`loading, page`error, page`data
    ensures page.State() == HandleAnimate(old(page.State()), o)
    ensures page.input == old(page.input)
  {
    page.StartRequest();
    page.CompleteRequest(o);
  }

  // ---------------------------------------------------------------------------
  // Selectors.

  /** The mood buttons, in the order they appear. */
  const Moods: seq<string> := ["romance", "gratitude", "miss you", "apology", "celebration"]

  const MoodSuffix: string := " \U{2014} you mean the world to me."

  function Greeting(mood: string): (g: string)
    ensures mood == "romance" ==> g == "I love you"
    ensures mood == "gratitude" ==> g == "Thank you"
    ensures mood == "miss you" ==> g == "I miss you"
    ensures mood == "apology" ==> g == "I am sorry"
    ensures mood !in {"romance", "gratitude", "miss you", "apology"} ==> g == "Let's celebrate!"
  {
    if mood == "romance" then "I love you"
    else if mood == "gratitude" then "Thank you"
    else if mood == "miss you" then "I miss you"
    else if mood == "apology" then "I am sorry"
    else "Let's celebrate!"
  }

  /** The suggested message for a mood: its greeting followed by the fixed closing. */
  function MoodText(mood: string): (t: string)
    ensures |t| > |MoodSuffix|
    ensures t[|t| - |MoodSuffix|..] == MoodSuffix
    ensures t[..|t| - |MoodSuffix|] == Greeting(mood)
  {
    Greeting(mood) + MoodSuffix
  }

  /** Each of the five buttons suggests a different message. */
  lemma MoodTextsDistinct(a: nat, b: nat)
    requires a < b < |Moods|
    ensures MoodText(Moods[a]) != MoodText(Moods[b])
  {
  }

  const HeartEmoji: string := "\U{1F496}"
  const PartyEmoji: string := "\U{1F389}"
  const YellowHeartEmoji: string := "\U{1F49B}"
  const AmberColor: string := "#F59E0B"
  const PinkColor: string := "#EC4899"

  /** The emoji circling the orbit: party for celebration, yellow heart for apology, a heart otherwise. */
  function OrbitEmoji(theme: Option<string>): (e: string)
    ensures theme == Some("celebration") ==> e == PartyEmoji
    ensures theme == Some("apology") ==> e == YellowHeartEmoji
    ensures theme != Some("celebration") && theme != Some("apology") ==> e == HeartEmoji
  {
    if theme == Some("celebration") then PartyEmoji
    else if theme == Some("apology") then YellowHeartEmoji
    else HeartEmoji
  }

  /** The orbit colour: amber for apology, pink otherwise. */
  function OrbitColor(theme: Option<string>): (c: string)
    ensures c == AmberColor <==> theme == Some("apology")
    ensures c == AmberColor || c == PinkColor
  {
    if theme == Some("apology") then AmberColor else PinkColor
  }

  /** The orbit is amber exactly when it carries the yellow heart, and a theme-less payload gets the pink heart. */
  lemma OrbitConsistent(theme: Option<string>)
    ensures OrbitColor(theme) == AmberColor <==> OrbitEmoji(theme) == YellowHeartEmoji
    ensures theme.None? ==> OrbitEmoji(theme) == HeartEmoji && OrbitColor(theme) == PinkColor
  {
  }

  /** The tags panel: one chip per tag, or the placeholder sentence. */
  datatype TagsPanel = Chips(tags: seq<string>) | Placeholder(sentence: string)

  const TagsPlaceholder: string := "We will sense the mood from your message."

  function TagsPanelOf(tags: Option<seq<string>>): (r: TagsPanel)
    ensures r.Chips? <==> tags.Some? && tags.value != []
    ensures r.Chips? ==> r.tags == tags.value
    ensures r.Placeholder? ==> r.sentence == TagsPlaceholder
  {
    if GetOr(tags, []) != [] then Chips(tags.value) else Placeholder(TagsPlaceholder)
  }

  /** The page at mount: default theme, so a pink heart orbit, and no tag chips. */
  lemma InitialStateView()
    ensures !InitialState.loading && InitialState.error == ""
    ensures OrbitEmoji(InitialState.data.theme) == HeartEmoji && OrbitColor(InitialState.data.theme) == PinkColor
    ensures TagsPanelOf(InitialState.data.tags) == Placeholder(TagsPlaceholder)
    ensures PropsOf(InitialState.data) == MessageProps([], DefaultTheme, "", [])
  {
  }

  /**
   * A failed request keeps showing whatever was shown before it: the data of
   * any run of the handler that fails equals the data before it, whatever
   * sequence of outcomes came earlier.
   */
  lemma {:induction false} FailuresKeepLastPayload(s: RequestState, outcomes: seq<FetchOutcome>)
    requires forall k :: 0 <= k < |outcomes| ==> !outcomes[k].Parsed?
    ensures RunAll(s, outcomes).data == s.data
    ensures outcomes != [] ==> RunAll(s, outcomes).error != "" && !RunAll(s, outcomes).loading
    decreases |outcomes|
  {
    if outcomes != [] {
      FailuresKeepLastPayload(HandleAnimate(s, outcomes[0]), outcomes[1..]);
    }
  }

  /** Successive runs of the handler, one per outcome, in order. */
  function RunAll(s: RequestState, outcomes: seq<FetchOutcome>): RequestState
    decreases |outcomes|
  {
    if outcomes == [] then s else RunAll(HandleAnimate(s, outcomes[0]), outcomes[1..])
  }

  /** After several runs, the data is the payload of the last successful one (or the start's). */
  lemma {:induction false} LastSuccessWins(s: RequestState, outcomes: seq<FetchOutcome>, k: nat)
    requires k < |outcomes| && outcomes[k].Parsed?
    requires forall j :: k < j < |outcomes| ==> !outcomes[j].Parsed?
    ensures RunAll(s, outcomes).data == outcomes[k].json
    decreases |outcomes|
  {
    if k == 0 {
      FailuresKeepLastPayload(HandleAnimate(s, outcomes[0]), outcomes[1..]);
    } else {
      LastSuccessWins(HandleAnimate(s, outcomes[0]), outcomes[1..], k - 1);
    }
  }
}
