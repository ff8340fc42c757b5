/**
 * The static fixtures of constants.ts: the mock photographer directory and
 * the labels of the cosmetic progress ticker.
 */
module Constants {
  import opened Types

  /** MOCK_PHOTOGRAPHERS (constants.ts:3-94), ratings omitted. */
  const MockPhotographers: seq<Photographer> := [
    Photographer(
      "p1", "Elena Rossi", "Dark & Moody",
      "Capturing raw emotions with cinematic lighting and deep shadows. Perfect for intimate, romantic elopements.",
      "$3,500 - $5,000", "Portland, OR",
      "https://picsum.photos/seed/elena_avatar/200/200",
      ["https://picsum.photos/seed/elena1/600/800",
       "https://picsum.photos/seed/elena2/600/800",
       "https://picsum.photos/seed/elena3/600/800",
       "https://picsum.photos/seed/elena4/800/600"],
      ["Moody", "Cinematic", "Emotional", "Low Light"],
      124),
    Photographer(
      "p2", "James & Co.", "Bright & Airy",
      "Timeless, light-filled photography that feels effortless and joyful. We specialize in natural light and pastel tones.",
      "$4,000 - $6,500", "Charleston, SC",
      "https://picsum.photos/seed/james_avatar/200/200",
      ["https://picsum.photos/seed/james1/600/800",
       "https://picsum.photos/seed/james2/600/800",
       "https://picsum.photos/seed/james3/600/800",
       "https://picsum.photos/seed/james4/800/600"],
      ["Natural Light", "Pastel", "Soft", "Classic"],
      203),
    Photographer(
      "p3", "The Grain Collective", "Editorial & Film",
      "Fashion-forward wedding photography shot on 35mm film. For the modern couple who wants their wedding to look like Vogue.",
      "$6,000+", "New York, NY",
      "https://picsum.photos/seed/grain_avatar/200/200",
      ["https://picsum.photos/seed/grain1/600/800",
       "https://picsum.photos/seed/grain2/600/800",
       "https://picsum.photos/seed/grain3/600/800",
       "https://picsum.photos/seed/grain4/800/600"],
      ["Film", "Grainy", "High Fashion", "Black & White"],
      89),
    Photographer(
      "p4", "Wilder Hearts", "Documentary & Candid",
      "Storytelling without the posing. We capture the in-between moments, the laughter, and the tears exactly as they happen.",
      "$2,800 - $4,200", "Austin, TX",
      "https://picsum.photos/seed/wilder_avatar/200/200",
      ["https://picsum.photos/seed/wilder1/600/800",
       "https://picsum.photos/seed/wilder2/600/800",
       "https://picsum.photos/seed/wilder3/600/800",
       "https://picsum.photos/seed/wilder4/800/600"],
      ["Candid", "Journalistic", "Unposed", "Authentic"],
      156),
    Photographer(
      "p5", "Golden Hour Studios", "Bohemian & Warm",
      "Sun-drenched imagery for the adventurous soul. We chase the best light to make you look glowing and radiant.",
      "$3,200 - $4,800", "Joshua Tree, CA",
      "https://picsum.photos/seed/golden_avatar/200/200",
      ["https://picsum.photos/seed/golden1/600/800",
       "https://picsum.photos/seed/golden2/600/800",
       "https://picsum.photos/seed/golden3/600/800",
       "https://picsum.photos/seed/golden4/800/600"],
      ["Warm", "Sunset", "Boho", "Adventure"],
      92)
  ]

  /** INITIAL_ANALYSIS_STEPS (constants.ts:96-102). */
  const InitialAnalysisSteps: seq<string> := [
    "Uploading image...",
    "Analyzing color palette...",
    "Detecting lighting patterns...",
    "Matching aesthetic style...",
    "Curating photographer list..."
  ]

  /** No two directory entries share an id, so a lookup by id is unambiguous. */
  lemma DirectoryIdsDistinct()
    ensures forall i, j :: 0 <= i < j < |MockPhotographers| ==> MockPhotographers[i].id != MockPhotographers[j].id
  {
    var ids := ["p1", "p2", "p3", "p4", "p5"];
    assert |MockPhotographers| == 5;
    assert forall i :: 0 <= i < 5 ==> MockPhotographers[i].id == ids[i];
    assert forall i, j :: 0 <= i < j < 5 ==> ids[i][1] != ids[j][1];
  }
}
