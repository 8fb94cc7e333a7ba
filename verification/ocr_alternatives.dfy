/**
 Alternative readings of receipt items: item lines are aligned with the consensus text of a document, the
 consensus with the lines of each OCR pass, and both alignments are composed.
 */
module OcrAlternatives {
  import opened LatticePaths
  import opened OrderedMatching
  import RowMatcher

  /** How well two lines match: zero when they do not match at all. */
  type Similarity = (string, string) -> real

  /** Every line is compared with every line. */
  function Matrix(left: seq<string>, right: seq<string>, similarity: Similarity): (m: Weights)
    ensures Rows(m) == |left| && (left != [] ==> Cols(m) == |right|)
    ensures forall i, j | 0 <= i < |left| && 0 <= j < |right| :: m[i][j] == similarity(left[i], right[j])
  {
    seq(|left|, i requires 0 <= i < |left| =>
      seq(|right|, j requires 0 <= j < |right| => similarity(left[i], right[j])))
  }

  /** `align`: the associations that every optimal ordered alignment shares. */
  method Align(left: seq<string>, right: seq<string>, similarity: Similarity) returns (rows: map<int, int>)
    ensures forall i, j :: (i in rows && rows[i] == j) <==> Shared(Matrix(left, right, similarity), i, j)
  {
    rows := RowMatcher.UniqueOrderedMatches(Matrix(left, right, similarity));
  }

  /** Item `i` and line `l` are associated with the same consensus line. */
  ghost predicate Linked(items: seq<string>, consensus: seq<string>, lines: seq<string>, similarity: Similarity,
                         i: int, l: int)
  {
    exists c :: Shared(Matrix(items, consensus, similarity), i, c) && Shared(Matrix(consensus, lines, similarity), c, l)
  }

  /** Composed associations keep the order of items and lines: no line serves two items and no item two lines. */
  lemma LinksIncrease(items: seq<string>, consensus: seq<string>, lines: seq<string>, similarity: Similarity,
                      i: int, l: int, i': int, l': int)
    requires Linked(items, consensus, lines, similarity, i, l) && Linked(items, consensus, lines, similarity, i', l')
    ensures (i < i' <==> l < l') && (i == i' <==> l == l')
    ensures 0 <= i < |items| && 0 <= l < |lines|
  {
    hide IsMaximum;
    var a, b := Matrix(items, consensus, similarity), Matrix(consensus, lines, similarity);
    var c :| Shared(a, i, c) && Shared(b, c, l);
    var c' :| Shared(a, i', c') && Shared(b, c', l');
    SharedPairsIncrease(a, i, c, i', c');
    SharedPairsIncrease(b, c, l, c', l');
  }

  datatype Document = Document(id: string, consensus: seq<string>)

  /** One OCR pass; `success` also says that it produced text. */
  datatype Pass = Pass(document: string, success: bool, lines: seq<string>)

  /** Where a reading was seen: the document, the pass and the line. */
  datatype Sighting = Sighting(document: nat, pass: nat, line: nat)

  datatype Reading = Reading(text: string, sources: seq<Sighting>)

  datatype Input = Input(names: seq<string>, lines: seq<string>, documents: seq<Document>, passes: seq<Pass>,
                         similarity: Similarity, describe: string -> string)

  /** The pass belongs to the document and succeeded, and its line is linked to the item and has a description. */
  ghost predicate Sees(k: Input, item: int, s: Sighting) {
    && s.document < |k.documents| && s.pass < |k.passes| && s.line < |k.passes[s.pass].lines|
    && var d, p := k.documents[s.document], k.passes[s.pass];
       && p.document == d.id && p.success && Linked(k.lines, d.consensus, p.lines, k.similarity, item, s.line)
       && k.describe(p.lines[s.line]) != ""
  }

  function TextOf(k: Input, s: Sighting): string {
    if s.pass < |k.passes| && s.line < |k.passes[s.pass].lines| then k.describe(k.passes[s.pass].lines[s.line]) else ""
  }

  /** The sightings of the documents and passes handled so far. */
  predicate Handled(s: Sighting, document: nat, pass: nat) {
    s.document < document || (s.document == document && s.pass < pass)
  }

  /** The item's own name comes first, texts are distinct, and the other readings have sources, none of them twice. */
  predicate Shape(name: string, readings: seq<Reading>) {
    && readings != [] && readings[0].text == name
    && (forall i, j | 0 <= i < j < |readings| :: readings[i].text != readings[j].text)
    && (forall i | 0 < i < |readings| :: readings[i].sources != [])
    && (forall r | r in readings :: forall i, j | 0 <= i < j < |r.sources| :: r.sources[i] != r.sources[j])
  }

  /** Every source shows the text of its reading. */
  ghost predicate Sound(k: Input, item: int, readings: seq<Reading>, document: nat, pass: nat) {
    forall r | r in readings :: forall s | s in r.sources ::
      Sees(k, item, s) && TextOf(k, s) == r.text && Handled(s, document, pass)
  }

  predicate IsSource(readings: seq<Reading>, s: Sighting) {
    exists r :: r in readings && s in r.sources
  }

  /** Every sighting so far is a source. */
  ghost predicate Full(k: Input, item: int, readings: seq<Reading>, document: nat, pass: nat) {
    forall s | Sees(k, item, s) && Handled(s, document, pass) :: IsSource(readings, s)
  }

  ghost predicate AreReadings(k: Input, item: int, readings: seq<Reading>, document: nat, pass: nat) {
    && 0 <= item < |k.names| && Shape(k.names[item], readings)
    && Sound(k, item, readings, document, pass) && Full(k, item, readings, document, pass)
  }

  lemma NothingSeen(k: Input, item: int, readings: seq<Reading>, document: nat, pass: nat)
    requires AreReadings(k, item, readings, document, pass)
    requires forall l: nat :: !Sees(k, item, Sighting(document, pass, l))
    ensures AreReadings(k, item, readings, document, pass + 1)
  {
    hide Sees, TextOf;
    forall s | Sees(k, item, s) && Handled(s, document, pass + 1)
      ensures Handled(s, document, pass)
    {
      assert s == Sighting(s.document, s.pass, s.line);
    }
  }

  /** A pass shows an item on at most one line. */
  lemma SightingIsUnique(k: Input, item: int, document: nat, pass: nat, l: nat, l': nat)
    requires Sees(k, item, Sighting(document, pass, l)) && Sees(k, item, Sighting(document, pass, l'))
    ensures l == l'
  {
    hide Linked;
    LinksIncrease(k.lines, k.documents[document].consensus, k.passes[pass].lines, k.similarity, item, l, item, l');
  }

  lemma OneMoreSighting(k: Input, item: int, readings: seq<Reading>, s: Sighting)
    requires AreReadings(k, item, readings, s.document, s.pass) && Sees(k, item, s)
    ensures forall i | 0 <= i < |readings| && readings[i].text == TextOf(k, s) ::
              AreReadings(k, item, readings[i := readings[i].(sources := readings[i].sources + [s])], s.document,
                          s.pass + 1)
    ensures (forall r | r in readings :: r.text != TextOf(k, s)) ==>
              AreReadings(k, item, readings + [Reading(TextOf(k, s), [s])], s.document, s.pass + 1)
  {
    forall t | Sees(k, item, t) && Handled(t, s.document, s.pass + 1)
      ensures Handled(t, s.document, s.pass) || t == s
    {
      if t.document == s.document && t.pass == s.pass {
        SightingIsUnique(k, item, s.document, s.pass, t.line, s.line);
      }
    }
    hide Sees, TextOf;
    forall i | 0 <= i < |readings| && readings[i].text == TextOf(k, s)
      ensures AreReadings(k, item, readings[i := readings[i].(sources := readings[i].sources + [s])], s.document,
                          s.pass + 1)
    {
      ReadingExtended(k, item, readings, s, i);
    }
    if forall r | r in readings :: r.text != TextOf(k, s) {
      ReadingAdded(k, item, readings, s);
    }
  }

  /** Handling the next pass adds at most this sighting. */
  ghost predicate OnlyNext(k: Input, item: int, s: Sighting) {
    && Sees(k, item, s)
    && forall t | Sees(k, item, t) && Handled(t, s.document, s.pass + 1) :: Handled(t, s.document, s.pass) || t == s
  }

  lemma ReadingExtended(k: Input, item: int, readings: seq<Reading>, s: Sighting, i: nat)
    requires AreReadings(k, item, readings, s.document, s.pass) && OnlyNext(k, item, s)
    requires i < |readings| && readings[i].text == TextOf(k, s)
    ensures AreReadings(k, item, readings[i := readings[i].(sources := readings[i].sources + [s])], s.document,
                        s.pass + 1)
  {
    hide Sees, TextOf;
    var r := readings[i].(sources := readings[i].sources + [s]);
    var more := readings[i := r];
    forall t | Sees(k, item, t) && Handled(t, s.document, s.pass + 1)
      ensures IsSource(more, t)
    {
      if t == s {
        assert more[i] == r && s in r.sources;
      } else {
        var q :| q in readings && t in q.sources;
        var j :| 0 <= j < |readings| && readings[j] == q;
        assert t in more[j].sources;
      }
    }
  }

  lemma ReadingAdded(k: Input, item: int, readings: seq<Reading>, s: Sighting)
    requires AreReadings(k, item, readings, s.document, s.pass) && OnlyNext(k, item, s)
    requires forall r | r in readings :: r.text != TextOf(k, s)
    ensures AreReadings(k, item, readings + [Reading(TextOf(k, s), [s])], s.document, s.pass + 1)
  {
    hide Sees, TextOf;
    var more := readings + [Reading(TextOf(k, s), [s])];
    forall t | Sees(k, item, t) && Handled(t, s.document, s.pass + 1)
      ensures IsSource(more, t)
    {
      if t == s {
        assert more[|readings|] in more;
      } else {
        var q :| q in readings && t in q.sources;
        assert q in more;
      }
    }
  }

  /** Adds a source to the reading of its text, opening a new reading if there is none. */
  method AddSource(readings: seq<Reading>, text: string, s: Sighting, ghost k: Input, ghost item: int)
    returns (more: seq<Reading>)
    requires AreReadings(k, item, readings, s.document, s.pass) && Sees(k, item, s) && text == TextOf(k, s)
    ensures AreReadings(k, item, more, s.document, s.pass + 1)
  {
    hide AreReadings, Sees, TextOf;
    OneMoreSighting(k, item, readings, s);
    for i := 0 to |readings|
      invariant forall j | 0 <= j < i :: readings[j].text != text
    {
      if readings[i].text == text {
        return readings[i := readings[i].(sources := readings[i].sources + [s])];
      }
    }
    more := readings + [Reading(text, [s])];
  }

  /** One pass of one document: every item linked to a line with a description gets that line as a source. */
  method ReadPass(k: Input, document: nat, pass: nat, itemRows: map<int, int>, readings: seq<seq<Reading>>)
    returns (more: seq<seq<Reading>>)
    requires document < |k.documents| && pass < |k.passes| && |k.names| == |k.lines| == |readings|
    requires forall i, c :: (i in itemRows && itemRows[i] == c)
                       <==> Shared(Matrix(k.lines, k.documents[document].consensus, k.similarity), i, c)
    requires forall i | 0 <= i < |readings| :: AreReadings(k, i, readings[i], document, pass)
    ensures |more| == |readings| && forall i | 0 <= i < |more| :: AreReadings(k, i, more[i], document, pass + 1)
  {
    hide AreReadings, Shared, Linked;
    more := readings;
    var d, p := k.documents[document], k.passes[pass];
    if p.document != d.id || !p.success {
      forall i | 0 <= i < |readings|
        ensures AreReadings(k, i, readings[i], document, pass + 1)
      {
        NothingSeen(k, i, readings[i], document, pass);
      }
      return;
    }
    var passRows := Align(d.consensus, p.lines, k.similarity);
    for i := 0 to |readings|
      invariant |more| == |readings|
      invariant forall x | 0 <= x < |more| :: AreReadings(k, x, more[x], document, if x < i then pass + 1 else pass)
    {
      LinkFound(k, document, pass, itemRows, passRows, i);
      if i in itemRows && itemRows[i] in passRows {
        var line := passRows[itemRows[i]];
        var text := k.describe(p.lines[line]);
        if text != "" {
          var added := AddSource(more[i], text, Sighting(document, pass, line), k, i);
          more := more[i := added];
          continue;
        }
      }
      NothingSeen(k, i, more[i], document, pass);
    }
  }

  /** Composing the two alignments finds the linked line, if there is one. */
  lemma LinkFound(k: Input, document: nat, pass: nat, itemRows: map<int, int>, passRows: map<int, int>, i: int)
    requires document < |k.documents| && pass < |k.passes|
    requires forall i, c :: (i in itemRows && itemRows[i] == c)
                       <==> Shared(Matrix(k.lines, k.documents[document].consensus, k.similarity), i, c)
    requires forall c, l :: (c in passRows && passRows[c] == l)
                       <==> Shared(Matrix(k.documents[document].consensus, k.passes[pass].lines, k.similarity), c, l)
    ensures i in itemRows && itemRows[i] in passRows ==> 0 <= passRows[itemRows[i]] < |k.passes[pass].lines|
    ensures forall l :: Linked(k.lines, k.documents[document].consensus, k.passes[pass].lines, k.similarity, i, l)
                   <==> i in itemRows && itemRows[i] in passRows && passRows[itemRows[i]] == l
  {
    hide Shared;
    if i in itemRows && itemRows[i] in passRows {
      var c := itemRows[i];
      assert Shared(Matrix(k.lines, k.documents[document].consensus, k.similarity), i, c);
      assert Shared(Matrix(k.documents[document].consensus, k.passes[pass].lines, k.similarity), c, passRows[c]);
    }
    var consensus, lines := k.documents[document].consensus, k.passes[pass].lines;
    forall l
      ensures Linked(k.lines, consensus, lines, k.similarity, i, l)
         <==> i in itemRows && itemRows[i] in passRows && passRows[itemRows[i]] == l
    {
      if Linked(k.lines, consensus, lines, k.similarity, i, l) {
        var c :| Shared(Matrix(k.lines, consensus, k.similarity), i, c)
                 && Shared(Matrix(consensus, lines, k.similarity), c, l);
        assert i in itemRows && itemRows[i] == c && c in passRows && passRows[c] == l;
      }
    }
    if i in itemRows && itemRows[i] in passRows {
      assert Linked(k.lines, consensus, lines, k.similarity, i, passRows[itemRows[i]]);
      LinksIncrease(k.lines, consensus, lines, k.similarity, i, passRows[itemRows[i]], i, passRows[itemRows[i]]);
    }
  }

  /** `alternatives`: exactly the sightings of each item, grouped by distinct text. */
  method Alternatives(k: Input) returns (readings: seq<seq<Reading>>)
    requires |k.names| == |k.lines|
    ensures |readings| == |k.names|
    ensures forall i | 0 <= i < |readings| :: AreReadings(k, i, readings[i], |k.documents|, 0)
  {
    readings := seq(|k.names|, i requires 0 <= i < |k.names| => [Reading(k.names[i], [])]);
    forall i | 0 <= i < |readings|
      ensures AreReadings(k, i, readings[i], 0, 0)
    {
    }
    hide AreReadings, Shared;
    for d := 0 to |k.documents|
      invariant |readings| == |k.names|
      invariant forall i | 0 <= i < |readings| :: AreReadings(k, i, readings[i], d, 0)
    {
      var itemRows := Align(k.lines, k.documents[d].consensus, k.similarity);
      for p := 0 to |k.passes|
        invariant |readings| == |k.names|
        invariant forall i | 0 <= i < |readings| :: AreReadings(k, i, readings[i], d, p)
      {
        readings := ReadPass(k, d, p, itemRows, readings);
      }
      forall i | 0 <= i < |readings|
        ensures AreReadings(k, i, readings[i], d + 1, 0)
      {
      }
    }
  }
}
