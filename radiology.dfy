/** `is_abnormal_cxr`: the three-valued reading of a chest X-ray
    impression. The regular-expression engine is not modelled: `search`
    stands for `re.search(pattern, text)` finding a match. */
module Radiology {

  /** Patterns that indicate an abnormal X-ray, in source order. */
  const ABNORMALITIES: seq<string> := [
    ".+(lobe|RML|peribronchial|basilar) infiltrate",
    "lobe scarring or atelectasis",
    "(perihilar|Trace).+opacity",
    "Peribronchial thickeneing",
    "Left lower lobe consolidation",
    "Consolidation in the.+lung",
    "(?<!No )(Multifocal|lung|pulmonary).+opacities",
    "left pulmonary nodules",
    "(?<!no ) opacity",
    ".?(left|Left) lung base",
    "(Subtle left basilar|mass-like spiculated) density",
    "basilar atelectasis or scarring",
    "Elevated right hemidiaphragm",
    "(right hilar|septal) prominence"
  ]

  /** Patterns that indicate a normal X-ray, in source order. */
  const NO_ABNORMALITIES: seq<string> := [
    "No.+(acute|significant|definite|suspicious).+(abnormality|disease|opacities)",
    "Normal",
    "No pulmonary opacities visualized",
    "No evidence of acute cardiopulmonary disease",
    "No lobar consolidation"
  ]

  /** The classifier's verdict; the source returns True, False or None. */
  datatype Tristate = Abnormal | NotAbnormal | Unknown

  /** `any(re.search(p, text) for p in patterns)`. */
  function AnySearch(search: (string, string) -> bool, patterns: seq<string>, text: string): (found: bool)
    ensures found <==> exists p :: p in patterns && search(p, text)
  {
    if patterns == [] then false
    else search(patterns[0], text) || AnySearch(search, patterns[1..], text)
  }

  /** `is_abnormal_cxr`: not abnormal as soon as some normal pattern matches,
      whatever the abnormal patterns say; otherwise abnormal if some abnormal
      pattern matches; unknown if no pattern of either list matches. */
  function IsAbnormalCxr(search: (string, string) -> bool, text: string): (r: Tristate)
    ensures r == NotAbnormal <==> exists p :: p in NO_ABNORMALITIES && search(p, text)
    ensures r == Abnormal <==>
      (forall p :: p in NO_ABNORMALITIES ==> !search(p, text)) &&
      (exists p :: p in ABNORMALITIES && search(p, text))
    ensures r == Unknown <==> forall p :: p in NO_ABNORMALITIES + ABNORMALITIES ==> !search(p, text)
  {
    if AnySearch(search, NO_ABNORMALITIES, text) then NotAbnormal
    else if AnySearch(search, ABNORMALITIES, text) then Abnormal
    else Unknown
  }

  /** Strength of a verdict: unknown, then abnormal, then not abnormal. */
  function Strength(r: Tristate): nat
  {
    match r
    case Unknown => 0
    case Abnormal => 1
    case NotAbnormal => 2
  }

  /** More matching never weakens the verdict: if every pattern `weaker`
      finds is also found by `stronger`, the verdict can only move from
      unknown to abnormal to not abnormal, never back. */
  lemma MoreMatchesNeverWeaken(weaker: (string, string) -> bool, stronger: (string, string) -> bool, text: string)
    requires forall p :: p in NO_ABNORMALITIES + ABNORMALITIES && weaker(p, text) ==> stronger(p, text)
    ensures Strength(IsAbnormalCxr(weaker, text)) <= Strength(IsAbnormalCxr(stronger, text))
  {
    var w, s := IsAbnormalCxr(weaker, text), IsAbnormalCxr(stronger, text);
    if w == NotAbnormal {
      var p :| p in NO_ABNORMALITIES && weaker(p, text);
      assert p in NO_ABNORMALITIES + ABNORMALITIES;
    } else if w == Abnormal {
      var p :| p in ABNORMALITIES && weaker(p, text);
      assert p in NO_ABNORMALITIES + ABNORMALITIES;
    }
  }
}
