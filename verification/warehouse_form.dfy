/** The warehouse creation form: a generated warehouse code, a typed name
    and a store chosen from the loaded stores. The chosen store's id is
    kept even when no loaded store carries it; its name is copied when one
    does.
 */
module WarehouseForm {
  import opened Wrappers
  import opened Text
  import opened Seqs
  import opened Records
  import opened Forms

  const CodePrefix: string := "BOD-"

  const NameRequired: string := "El nombre de la bodega es obligatorio."
  const TiendaRequired: string := "Debe seleccionar una tienda."

  /** The form state; `nombreTienda` is absent when the chosen store has no
      name. */
  datatype Form = Form(codBodega: string, nomBodega: string, idTienda: string, nombreTienda: Option<string>)

  /** The document written to `bodegas`: the whole form. */
  datatype BodegaDoc = BodegaDoc(codBodega: string, nomBodega: string, idTienda: string, nombreTienda: Option<string>)

  /** The form right after mounting at time `ts`. */
  function Fresh(ts: nat): (f: Form)
    ensures f.codBodega == Code(CodePrefix, ts)
    ensures |f.codBodega| > |CodePrefix| && f.codBodega[..|CodePrefix|] == CodePrefix
    ensures ParseDecimal(f.codBodega[|CodePrefix|..]) == ts
    ensures f.nomBodega == "" && f.idTienda == "" && f.nombreTienda == Some("")
  {
    Form(Code(CodePrefix, ts), "", "", Some(""))
  }

  /** `handleInputChange` on the one input wired to it, the name. */
  function SetName(f: Form, value: string): (r: Form)
    ensures r.nomBodega == value
    ensures r.codBodega == f.codBodega && r.idTienda == f.idTienda && r.nombreTienda == f.nombreTienda
  {
    f.(nomBodega := value)
  }

  /** `handleTiendaChange`: keep the selected id, copy the first matching
      store's name or clear it. */
  function SelectTienda(f: Form, tiendas: seq<Tienda>, selected: string): (r: Form)
    ensures r.idTienda == selected
    ensures r.codBodega == f.codBodega && r.nomBodega == f.nomBodega
    ensures (forall i :: 0 <= i < |tiendas| ==> tiendas[i].id != selected) ==> r.nombreTienda == Some("")
    ensures forall i :: (0 <= i < |tiendas| && tiendas[i].id == selected
                && (forall j :: 0 <= j < i ==> tiendas[j].id != selected)) ==>
              r.nombreTienda == tiendas[i].nombreTienda
  {
    match FindBy(tiendas, TiendaId, Some(selected))
    case None => f.(idTienda := selected, nombreTienda := Some(""))
    case Some(t) => f.(idTienda := selected, nombreTienda := t.nombreTienda)
  }

  /** An id that no loaded store carries still passes the store check. */
  lemma UnknownStoreAccepted(f: Form, tiendas: seq<Tienda>, selected: string)
    requires selected != "" && !IsBlank(f.nomBodega)
    requires forall i :: 0 <= i < |tiendas| ==> tiendas[i].id != selected
    ensures Validate(SelectTienda(f, tiendas, selected)) == Valid
    ensures SelectTienda(f, tiendas, selected).nombreTienda == Some("")
  {
  }

  /** `validateForm`: the name, then the store. */
  function Validate(f: Form): (v: Verdict)
    ensures v == Valid <==> !IsBlank(f.nomBodega) && f.idTienda != ""
    ensures IsBlank(f.nomBodega) ==> v == Invalid(NameRequired)
    ensures !IsBlank(f.nomBodega) && f.idTienda == "" ==> v == Invalid(TiendaRequired)
  {
    if IsBlank(f.nomBodega) then Invalid(NameRequired)
    else if f.idTienda == "" then Invalid(TiendaRequired)
    else Valid
  }

  /** `handleSubmit` at time `ts`. */
  function Submit(f: Form, outcome: WriteOutcome, ts: nat): (s: Submitted<Form, BodegaDoc>)
    ensures Validate(f).Invalid? ==> s.write.None? && s.form == f
    ensures Validate(f) == Valid ==> s.write == Some(BodegaDoc(f.codBodega, f.nomBodega, f.idTienda, f.nombreTienda))
    ensures Validate(f) == Valid && outcome == Written ==>
              s.form.nomBodega == "" && s.form.idTienda == "" && s.form.nombreTienda == Some("")
              && s.form == Fresh(ts)
    ensures Validate(f) == Valid && outcome.WriteFailed? ==> s.form == f
  {
    if Validate(f).Invalid? then Submitted(f, None)
    else
      var doc := BodegaDoc(f.codBodega, f.nomBodega, f.idTienda, f.nombreTienda);
      Submitted(if outcome == Written then Fresh(ts) else f, Some(doc))
  }

  /** A whitespace-only name is rejected before the store is looked at. */
  lemma WhitespaceNameRejected(f: Form)
    requires forall i :: 0 <= i < |f.nomBodega| ==> IsWhitespace(f.nomBodega[i])
    ensures Validate(f) == Invalid(NameRequired)
  {
    BlankIffAllWhitespace(f.nomBodega);
  }

  /** After a completed write a second submit writes nothing. */
  lemma ResetFormInvalid(f: Form, ts: nat, ts': nat)
    requires Validate(f) == Valid
    ensures Validate(Submit(f, Written, ts).form) == Invalid(NameRequired)
    ensures Submit(Submit(f, Written, ts).form, Written, ts').write.None?
  {
    BlankIffAllWhitespace("");
  }

  /** Typing a name into a fresh form and choosing any store makes the form
      valid, and submitting it writes the name and store under the code
      generated at mount time. */
  lemma FilledFormWrites(ts: nat, ts': nat, tiendas: seq<Tienda>, n: string, id: string)
    requires !IsBlank(n) && id != ""
    ensures var f := SelectTienda(SetName(Fresh(ts), n), tiendas, id);
            && Validate(f) == Valid
            && Submit(f, Written, ts').write.Some?
            && Submit(f, Written, ts').write.value.codBodega == Code(CodePrefix, ts)
            && Submit(f, Written, ts').write.value.nomBodega == n
            && Submit(f, Written, ts').write.value.idTienda == id
            && Submit(f, Written, ts').form == Fresh(ts')
  {
  }

  lemma FreshCodesDistinct(ts: nat, ts': nat)
    requires ts != ts'
    ensures Fresh(ts).codBodega != Fresh(ts').codBodega
  {
    CodeInjective(CodePrefix, ts, ts');
  }
}
