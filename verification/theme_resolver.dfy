/**
 * The background accent of the message card: a gradient chosen from the
 * payload's theme, with a default gradient for every other theme.
 */
module ThemeResolver {

  const RomanceAccent: string := "from-rose-300/40 via-rose-200/30 to-fuchsia-200/40"
  const GratitudeAccent: string := "from-amber-200/40 via-orange-100/30 to-yellow-200/40"
  const MissYouAccent: string := "from-indigo-200/40 via-sky-200/30 to-violet-200/40"
  const ApologyAccent: string := "from-orange-200/40 via-amber-100/30 to-slate-200/40"
  const CelebrationAccent: string := "from-pink-200/40 via-yellow-200/30 to-green-200/40"
  const DefaultAccent: string := "from-pink-200/40 via-blue-200/30 to-emerald-200/40"

  /** The themes that have an accent of their own. */
  const NamedThemes: set<string> := {"romance", "gratitude", "missyou", "apology", "celebration"}

  /** Every gradient the resolver can produce. */
  const Accents: set<string> := {RomanceAccent, GratitudeAccent, MissYouAccent, ApologyAccent, CelebrationAccent, DefaultAccent}

  function AccentFor(theme: string): (a: string)
    ensures a in Accents
    ensures theme !in NamedThemes <==> a == DefaultAccent
    ensures theme == "romance" ==> a == RomanceAccent
    ensures theme == "gratitude" ==> a == GratitudeAccent
    ensures theme == "missyou" ==> a == MissYouAccent
    ensures theme == "apology" ==> a == ApologyAccent
    ensures theme == "celebration" ==> a == CelebrationAccent
  {
    match theme
    case "romance" => RomanceAccent
    case "gratitude" => GratitudeAccent
    case "missyou" => MissYouAccent
    case "apology" => ApologyAccent
    case "celebration" => CelebrationAccent
    case _ => DefaultAccent
  }

  /** Two themes share an accent only when neither has one of its own, or they are the same theme. */
  lemma AccentInjectiveOnNamed(t: string, u: string)
    requires AccentFor(t) == AccentFor(u)
    ensures t == u || (t !in NamedThemes && u !in NamedThemes)
  {
  }
}
