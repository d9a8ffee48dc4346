/** The rack creation form: a generated rack code, three typed fields and a
    warehouse chosen from the loaded warehouses. Validation reports the
    first failing check; a valid submit writes the rack without the
    warehouse's name and, once written, starts over with a fresh code.
 */
module RackForm {
  import opened Wrappers
  import opened Text
  import opened Seqs
  import opened Records
  import opened Forms

  const CodePrefix: string := "RACK-"

  const NumRackRequired: string := "El número de rack es obligatorio."
  const FilaRequired: string := "La fila es obligatoria."
  const PasilloRequired: string := "El pasillo es obligatorio."
  const BodegaRequired: string := "Debe seleccionar una bodega."

  /** The form state; `nomBodega` is copied from the chosen warehouse and
      is absent when that warehouse has no name. */
  datatype Form = Form(
    codRack: string,
    numRack: string,
    fila: string,
    pasillo: string,
    codBodega: string,
    nomBodega: Option<string>)

  /** The document written to `racks`. */
  datatype RackDoc = RackDoc(codRack: string, numRack: string, fila: string, pasillo: string, codBodega: string)

  /** The inputs wired to `handleInputChange`, by element id. */
  datatype Input = NumRack | Fila | Pasillo

  /** The form right after mounting at time `ts`. */
  function Fresh(ts: nat): (f: Form)
    ensures f.codRack == Code(CodePrefix, ts)
    ensures |f.codRack| > |CodePrefix| && f.codRack[..|CodePrefix|] == CodePrefix
    ensures ParseDecimal(f.codRack[|CodePrefix|..]) == ts
    ensures f.numRack == "" && f.fila == "" && f.pasillo == "" && f.codBodega == "" && f.nomBodega == Some("")
  {
    Form(Code(CodePrefix, ts), "", "", "", "", Some(""))
  }

  /** `handleInputChange`: `[id]: value`. */
  function SetInput(f: Form, id: Input, value: string): (r: Form)
    ensures id == NumRack ==> r == f.(numRack := value)
    ensures id == Fila ==> r == f.(fila := value)
    ensures id == Pasillo ==> r == f.(pasillo := value)
    ensures r.codRack == f.codRack && r.codBodega == f.codBodega && r.nomBodega == f.nomBodega
  {
    match id
    case NumRack => f.(numRack := value)
    case Fila => f.(fila := value)
    case Pasillo => f.(pasillo := value)
  }

  /** `handleBodegaChange`: copy code and name of the first warehouse whose
      code is the selected value, or clear both when none is. */
  function SelectBodega(f: Form, bodegas: seq<Bodega>, selected: string): (r: Form)
    ensures r.codRack == f.codRack && r.numRack == f.numRack && r.fila == f.fila && r.pasillo == f.pasillo
    ensures (forall i :: 0 <= i < |bodegas| ==> bodegas[i].codBodega != Some(selected)) ==>
              r.codBodega == "" && r.nomBodega == Some("")
    ensures forall i :: (0 <= i < |bodegas| && bodegas[i].codBodega == Some(selected)
                && (forall j :: 0 <= j < i ==> bodegas[j].codBodega != Some(selected))) ==>
              r.codBodega == selected && r.nomBodega == bodegas[i].nomBodega
  {
    match FindBy(bodegas, BodegaCode, Some(selected))
    case None => f.(codBodega := "", nomBodega := Some(""))
    case Some(b) => f.(codBodega := selected, nomBodega := b.nomBodega)
  }

  /** The placeholder option "" selects nothing. */
  lemma SelectPlaceholderClears(f: Form, bodegas: seq<Bodega>)
    requires forall i :: 0 <= i < |bodegas| ==> bodegas[i].codBodega != Some("")
    ensures SelectBodega(f, bodegas, "").codBodega == ""
  {
  }

  /** `validateForm`: the checks in source order, first failure reported. */
  function Validate(f: Form): (v: Verdict)
    ensures v == Valid <==> !IsBlank(f.numRack) && !IsBlank(f.fila) && !IsBlank(f.pasillo) && f.codBodega != ""
    ensures IsBlank(f.numRack) ==> v == Invalid(NumRackRequired)
    ensures !IsBlank(f.numRack) && IsBlank(f.fila) ==> v == Invalid(FilaRequired)
    ensures !IsBlank(f.numRack) && !IsBlank(f.fila) && IsBlank(f.pasillo) ==> v == Invalid(PasilloRequired)
    ensures !IsBlank(f.numRack) && !IsBlank(f.fila) && !IsBlank(f.pasillo) && f.codBodega == "" ==>
              v == Invalid(BodegaRequired)
  {
    if IsBlank(f.numRack) then Invalid(NumRackRequired)
    else if IsBlank(f.fila) then Invalid(FilaRequired)
    else if IsBlank(f.pasillo) then Invalid(PasilloRequired)
    else if f.codBodega == "" then Invalid(BodegaRequired)
    else Valid
  }

  /** A field holding only whitespace fails like an empty one. */
  lemma WhitespaceOnlyRejected(f: Form)
    requires forall i :: 0 <= i < |f.numRack| ==> IsWhitespace(f.numRack[i])
    ensures Validate(f) == Invalid(NumRackRequired)
  {
    BlankIffAllWhitespace(f.numRack);
  }

  /** The messages are distinct, so the one shown names the failing field. */
  lemma MessagesDistinct()
    ensures |{NumRackRequired, FilaRequired, PasilloRequired, BodegaRequired}| == 4
  {
  }

  /** `handleSubmit` at time `ts`: an invalid form writes nothing; a valid
      one writes the rack document; a completed write resets the form with
      a fresh code and a failed one keeps it. */
  function Submit(f: Form, outcome: WriteOutcome, ts: nat): (s: Submitted<Form, RackDoc>)
    ensures Validate(f).Invalid? ==> s.write.None? && s.form == f
    ensures Validate(f) == Valid ==> s.write == Some(RackDoc(f.codRack, f.numRack, f.fila, f.pasillo, f.codBodega))
    ensures Validate(f) == Valid && outcome == Written ==> s.form == Fresh(ts)
    ensures Validate(f) == Valid && outcome.WriteFailed? ==> s.form == f
  {
    if Validate(f).Invalid? then Submitted(f, None)
    else
      var doc := RackDoc(f.codRack, f.numRack, f.fila, f.pasillo, f.codBodega);
      Submitted(if outcome == Written then Fresh(ts) else f, Some(doc))
  }

  /** Every written rack has a number, a row and an aisle that are not
      blank, and names a warehouse. */
  lemma WrittenRackComplete(f: Form, outcome: WriteOutcome, ts: nat)
    requires Submit(f, outcome, ts).write.Some?
    ensures var d := Submit(f, outcome, ts).write.value;
            !IsBlank(d.numRack) && !IsBlank(d.fila) && !IsBlank(d.pasillo) && d.codBodega != ""
  {
  }

  /** After a completed write the form fails validation until filled in
      again, so pressing submit twice does not write twice. */
  lemma ResetFormInvalid(f: Form, ts: nat, ts': nat)
    requires Validate(f) == Valid
    ensures Validate(Submit(f, Written, ts).form) == Invalid(NumRackRequired)
    ensures Submit(Submit(f, Written, ts).form, Written, ts').write.None?
  {
    BlankIffAllWhitespace("");
  }

  /** Filling the three inputs of a fresh form with text and choosing a
      loaded warehouse makes the form valid, and submitting it writes the
      typed values under the code generated at mount time. */
  lemma FilledFormWrites(ts: nat, ts': nat, bodegas: seq<Bodega>, n: string, fi: string, pa: string, k: string)
    requires !IsBlank(n) && !IsBlank(fi) && !IsBlank(pa) && k != ""
    requires exists i :: 0 <= i < |bodegas| && bodegas[i].codBodega == Some(k)
    ensures var f := SelectBodega(SetInput(SetInput(SetInput(Fresh(ts), NumRack, n), Fila, fi), Pasillo, pa), bodegas, k);
            && Validate(f) == Valid
            && Submit(f, Written, ts').write == Some(RackDoc(Code(CodePrefix, ts), n, fi, pa, k))
            && Submit(f, Written, ts').form == Fresh(ts')
  {
    var typed := SetInput(SetInput(SetInput(Fresh(ts), NumRack, n), Fila, fi), Pasillo, pa);
    assert typed == Form(Code(CodePrefix, ts), n, fi, pa, "", Some(""));
    var f := SelectBodega(typed, bodegas, k);
    assert FindBy(bodegas, BodegaCode, Some(k)).Some?;
    assert f.codBodega == k;
  }

  /** Forms reset at distinct times carry distinct rack codes. */
  lemma FreshCodesDistinct(ts: nat, ts': nat)
    requires ts != ts'
    ensures Fresh(ts).codRack != Fresh(ts').codRack
  {
    CodeInjective(CodePrefix, ts, ts');
  }
}
