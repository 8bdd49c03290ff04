/** The f-string prompts of the Suno pages, read as templates: literal text with
    slots that Python fills with the form values, unconditionally and in place
    (music123.py:160-179, music55.py:158-175). */
module Template {
  import opened Text

  /** The parameters of `generate_suno_prompt`. */
  datatype Field = Genre | Theme | Mood | Structure | Lang

  /** The form values passed to `generate_suno_prompt`; an empty field is "". */
  datatype Request = Request(genre: string, theme: string, mood: string, structure: string, lang: string)

  function Value(req: Request, f: Field): string
  {
    match f
    case Genre => req.genre
    case Theme => req.theme
    case Mood => req.mood
    case Structure => req.structure
    case Lang => req.lang
  }

  /** One piece of an f-string: literal text or a `{field}` slot. */
  datatype Piece = Lit(text: string) | Slot(field: Field)

  function PieceText(p: Piece, req: Request): string
  {
    match p
    case Lit(s) => s
    case Slot(f) => Value(req, f)
  }

  /** Evaluating the f-string: each slot becomes its field's value as it is. */
  function Interpolate(t: seq<Piece>, req: Request): string
  {
    if t == [] then [] else PieceText(t[0], req) + Interpolate(t[1..], req)
  }

  /** Number of `{f}` slots in the template. */
  function SlotCount(t: seq<Piece>, f: Field): nat
  {
    if t == [] then 0 else (if t[0] == Slot(f) then 1 else 0) + SlotCount(t[1..], f)
  }

  /** Total length of the literal text of the template. */
  function LitLength(t: seq<Piece>): nat
  {
    if t == [] then 0 else (if t[0].Lit? then |t[0].text| else 0) + LitLength(t[1..])
  }

  /** Where the text of piece `k` starts in the evaluated f-string. */
  function Offset(t: seq<Piece>, req: Request, k: nat): nat
    requires k <= |t|
  {
    |Interpolate(t[..k], req)|
  }

  lemma {:induction false} InterpolateConcat(a: seq<Piece>, b: seq<Piece>, req: Request)
    ensures Interpolate(a + b, req) == Interpolate(a, req) + Interpolate(b, req)
    decreases |a|
  {
    if a == [] {
      assert a + b == b;
    } else {
      assert (a + b)[0] == a[0];
      assert (a + b)[1..] == a[1..] + b;
      InterpolateConcat(a[1..], b, req);
    }
  }

  /** The length of the prompt is that of its literal text plus that of each
      field value, once per slot of that field. */
  lemma {:induction false} InterpolateLength(t: seq<Piece>, req: Request)
    ensures |Interpolate(t, req)| == LitLength(t)
      + SlotCount(t, Genre) * |req.genre| + SlotCount(t, Theme) * |req.theme|
      + SlotCount(t, Mood) * |req.mood| + SlotCount(t, Structure) * |req.structure|
      + SlotCount(t, Lang) * |req.lang|
    decreases |t|
  {
    if t != [] {
      var u := t[1..];
      InterpolateLength(u, req);
      match t[0]
      case Lit(_) =>
      case Slot(f) =>
        var n := |Value(req, f)|;
        assert (SlotCount(u, f) + 1) * n == SlotCount(u, f) * n + n;
    }
  }

  /** The value of a slot's field stands in the prompt exactly where the slot is. */
  lemma SlotShowsValue(t: seq<Piece>, req: Request, k: nat)
    requires k < |t| && t[k].Slot?
    ensures MatchAt(Interpolate(t, req), Value(req, t[k].field), Offset(t, req, k))
  {
    assert t == t[..k] + ([t[k]] + t[k + 1..]);
    InterpolateConcat(t[..k], [t[k]] + t[k + 1..], req);
    InterpolateConcat([t[k]], t[k + 1..], req);
    assert Interpolate([t[k]], req) == Value(req, t[k].field);
    OccursBetween(Interpolate(t[..k], req), Value(req, t[k].field), Interpolate(t[k + 1..], req));
  }

  /** Two slots never overlap: a later slot starts after an earlier one ends. */
  lemma SlotsInOrder(t: seq<Piece>, req: Request, j: nat, k: nat)
    requires j < k < |t| && t[j].Slot?
    ensures Offset(t, req, j) + |Value(req, t[j].field)| <= Offset(t, req, k)
  {
    assert t[..k] == t[..j] + [t[j]] + t[j + 1..k];
    InterpolateConcat(t[..j] + [t[j]], t[j + 1..k], req);
    InterpolateConcat(t[..j], [t[j]], req);
    assert Interpolate([t[j]], req) == Value(req, t[j].field);
  }

  /** A field with at least one slot has a slot at some index. */
  lemma {:induction false} FindSlot(t: seq<Piece>, f: Field) returns (k: nat)
    requires SlotCount(t, f) >= 1
    ensures k < |t| && t[k] == Slot(f)
    decreases |t|
  {
    if t[0] == Slot(f) {
      k := 0;
    } else {
      var j := FindSlot(t[1..], f);
      k := j + 1;
    }
  }

  /** When every field has a slot, the prompt contains every form value,
      empty or not. */
  lemma EveryFieldShown(t: seq<Piece>, req: Request)
    requires forall f :: SlotCount(t, f) >= 1
    ensures forall f :: Occurs(Interpolate(t, req), Value(req, f))
  {
    forall f
      ensures Occurs(Interpolate(t, req), Value(req, f))
    {
      var k := FindSlot(t, f);
      SlotShowsValue(t, req, k);
    }
  }
}
