/**
 * What the results and profile screens show: the directory lookup
 * `MOCK_PHOTOGRAPHERS.find(p => p.id === id)` and the cards rendered for the
 * matches of an analysis (App.tsx:271-323, 461-463).
 */
module Results {
  import opened Types

  /** The most key elements a card shows (App.tsx:312). */
  const ShownElements: nat := 3

  /** `directory.find(p => p.id === id)`: the first entry with that id, if any. */
  function Find(directory: seq<Photographer>, id: string): (r: Option<Photographer>)
    ensures r.None? <==> forall p :: p in directory ==> p.id != id
    ensures r.Some? ==> r.value in directory && r.value.id == id
  {
    if directory == [] then None
    else if directory[0].id == id then Some(directory[0])
    else
      assert forall p :: p in directory ==> p == directory[0] || p in directory[1..];
      Find(directory[1..], id)
  }

  /** The entry found is the first one carrying the id. */
  lemma {:induction false} FindIsFirst(directory: seq<Photographer>, id: string, k: nat)
    requires k < |directory| && directory[k].id == id
    requires forall j :: 0 <= j < k ==> directory[j].id != id
    ensures Find(directory, id) == Some(directory[k])
  {
    if k > 0 {
      FindIsFirst(directory[1..], id, k - 1);
    }
  }

  /** A rendered match card: the match, the photographer it resolves to, and the key elements shown. */
  datatype Card = Card(result: MatchResult, photographer: Photographer, shownElements: seq<string>)

  /**
   * The cards of `analysis.matches.map(...)`: a match whose photographer id
   * is not in the directory renders nothing; the others render in order,
   * with at most three key elements.
   */
  function Cards(matches: seq<MatchResult>, directory: seq<Photographer>): (r: seq<Card>)
    ensures |r| <= |matches|
    ensures forall c :: c in r ==> c.result in matches
    ensures forall c :: c in r ==> Find(directory, c.result.photographerId) == Some(c.photographer)
    ensures forall c :: c in r ==> |c.shownElements| <= ShownElements
                                   && c.shownElements <= c.result.keyElementsDetected
  {
    if matches == [] then []
    else CardOf(matches[0], directory) + Cards(matches[1..], directory)
  }

  /** The card one match renders: none when its photographer id does not resolve. */
  function CardOf(m: MatchResult, directory: seq<Photographer>): (r: seq<Card>)
    ensures r == [] <==> Find(directory, m.photographerId).None?
    ensures |r| <= 1
    ensures r != [] ==> r[0].result == m && Find(directory, m.photographerId) == Some(r[0].photographer)
                        && |r[0].shownElements| <= ShownElements && r[0].shownElements <= m.keyElementsDetected
  {
    match Find(directory, m.photographerId)
    case None => []
    case Some(p) => [Card(m, p, Take(m.keyElementsDetected, ShownElements))]
  }

  /** Rendering distributes over concatenation of the match list, so the cards keep the matches' order. */
  lemma {:induction false} CardsAppend(first: seq<MatchResult>, second: seq<MatchResult>, directory: seq<Photographer>)
    ensures Cards(first + second, directory) == Cards(first, directory) + Cards(second, directory)
  {
    if first == [] {
      assert first + second == second;
    } else {
      calc {
        Cards(first + second, directory);
        { assert (first + second)[0] == first[0];
          assert (first + second)[1..] == first[1..] + second; }
        CardOf(first[0], directory) + Cards(first[1..] + second, directory);
        { CardsAppend(first[1..], second, directory); }
        CardOf(first[0], directory) + (Cards(first[1..], directory) + Cards(second, directory));
      }
    }
  }

  /** Every match whose photographer resolves gets a card, with its key elements cut to three. */
  lemma {:induction false} CardsComplete(matches: seq<MatchResult>, directory: seq<Photographer>, i: nat)
    requires i < |matches|
    requires Find(directory, matches[i].photographerId).Some?
    ensures Card(matches[i], Find(directory, matches[i].photographerId).value,
                 Take(matches[i].keyElementsDetected, ShownElements)) in Cards(matches, directory)
  {
    if i > 0 {
      CardsComplete(matches[1..], directory, i - 1);
    }
  }

  /** When every id resolves, there is one card per match. */
  lemma {:induction false} CardsAllResolved(matches: seq<MatchResult>, directory: seq<Photographer>)
    requires forall m :: m in matches ==> Find(directory, m.photographerId).Some?
    ensures |Cards(matches, directory)| == |matches|
  {
    if matches != [] {
      assert forall m :: m in matches[1..] ==> m in matches;
      CardsAllResolved(matches[1..], directory);
    }
  }
}
