/** The store creation form: a name, a region and a commune chosen from the
    region table, a street and a street number. The street and number are
    stored joined by one space. The region table is a parameter.
 */
module StoreForm {
  import opened Wrappers
  import opened Text
  import opened Seqs
  import opened Forms

  const NameRequired: string := "El nombre de la tienda es obligatorio."
  const RegionRequired: string := "Debe seleccionar una región."
  const CiudadRequired: string := "Debe seleccionar una ciudad."
  const DireccionRequired: string := "La dirección es obligatoria."
  const NumeroInvalid: string := "El número de dirección debe ser un número válido."

  datatype Form = Form(nombreTienda: string, direccion: string, numeroDireccion: string, ciudad: string, region: string)

  const Empty: Form := Form("", "", "", "", "")

  /** One entry of the region table: a region and its communes. */
  datatype Region = Region(region: string, comunas: seq<string>)

  function RegionKey(r: Region): string { r.region }

  /** The document written to `tiendas`; `fechaCreacion` is the write time. */
  datatype TiendaDoc = TiendaDoc(nombreTienda: string, direccion: string, ciudad: string, region: string, fechaCreacion: nat)

  /** The inputs wired to `handleInputChange`, by element id. */
  datatype Input = NombreTienda | Ciudad | Direccion | NumeroDireccion

  function SetInput(f: Form, id: Input, value: string): (r: Form)
    ensures id == NombreTienda ==> r == f.(nombreTienda := value)
    ensures id == Ciudad ==> r == f.(ciudad := value)
    ensures id == Direccion ==> r == f.(direccion := value)
    ensures id == NumeroDireccion ==> r == f.(numeroDireccion := value)
    ensures r.region == f.region
  {
    match id
    case NombreTienda => f.(nombreTienda := value)
    case Ciudad => f.(ciudad := value)
    case Direccion => f.(direccion := value)
    case NumeroDireccion => f.(numeroDireccion := value)
  }

  /** `handleRegionChange`: a new region clears the chosen commune. */
  function SetRegion(f: Form, selected: string): (r: Form)
    ensures r.region == selected && r.ciudad == ""
    ensures r.nombreTienda == f.nombreTienda && r.direccion == f.direccion && r.numeroDireccion == f.numeroDireccion
  {
    f.(region := selected, ciudad := "")
  }

  /** The communes offered for the form's region. */
  function Comunas(f: Form, regions: seq<Region>): (cs: seq<string>)
    ensures f.region == "" ==> cs == []
    ensures (forall i :: 0 <= i < |regions| ==> regions[i].region != f.region) ==> cs == []
    ensures f.region != "" ==>
              forall i :: (0 <= i < |regions| && regions[i].region == f.region
                  && (forall j :: 0 <= j < i ==> regions[j].region != f.region)) ==>
                cs == regions[i].comunas
  {
    if f.region == "" then []
    else
      match FindBy(regions, RegionKey, f.region)
      case None => []
      case Some(r) => r.comunas
  }

  /** The communes depend on the region alone, so changing the region is
      what changes the list. */
  lemma ComunasFollowRegion(f: Form, g: Form, regions: seq<Region>)
    requires f.region == g.region
    ensures Comunas(f, regions) == Comunas(g, regions)
  {
  }

  /** `validateForm`, checks in source order. The street number must be
      non-blank after trimming and consist of digits only before it. */
  function Validate(f: Form): (v: Verdict)
    ensures v == Valid <==>
              && !IsBlank(f.nombreTienda) && f.region != "" && f.ciudad != ""
              && !IsBlank(f.direccion) && IsDigitString(f.numeroDireccion)
    ensures IsBlank(f.nombreTienda) ==> v == Invalid(NameRequired)
    ensures !IsBlank(f.nombreTienda) && f.region == "" ==> v == Invalid(RegionRequired)
    ensures !IsBlank(f.nombreTienda) && f.region != "" && f.ciudad == "" ==> v == Invalid(CiudadRequired)
    ensures !IsBlank(f.nombreTienda) && f.region != "" && f.ciudad != "" && IsBlank(f.direccion) ==>
              v == Invalid(DireccionRequired)
    ensures (!IsBlank(f.nombreTienda) && f.region != "" && f.ciudad != "" && !IsBlank(f.direccion)
              && !IsDigitString(f.numeroDireccion)) ==> v == Invalid(NumeroInvalid)
  {
    if IsBlank(f.nombreTienda) then Invalid(NameRequired)
    else if f.region == "" then Invalid(RegionRequired)
    else if f.ciudad == "" then Invalid(CiudadRequired)
    else if IsBlank(f.direccion) then Invalid(DireccionRequired)
    else if IsBlank(f.numeroDireccion) || !IsDigitString(f.numeroDireccion) then
      Invalid(NumeroInvalid)
    else Valid
  }

  /** Changing the region always leaves the form without a commune, so it
      fails validation until one is chosen again. */
  lemma RegionChangeNeedsCiudad(f: Form, selected: string)
    requires selected != "" && !IsBlank(f.nombreTienda)
    ensures Validate(SetRegion(f, selected)) == Invalid(CiudadRequired)
  {
  }

  /** A street number with a leading space passes the trim check but fails
      the digits check. */
  lemma PaddedNumberRejected(f: Form)
    requires !IsBlank(f.nombreTienda) && f.region != "" && f.ciudad != "" && !IsBlank(f.direccion)
    requires f.numeroDireccion == " 12"
    ensures Validate(f) == Invalid(NumeroInvalid)
  {
    assert !IsDigit(f.numeroDireccion[0]);
  }

  /** The stored address: `${direccion} ${numeroDireccion}`. */
  function Address(f: Form): string {
    f.direccion + " " + f.numeroDireccion
  }

  /** `handleSubmit` writing at time `now`. */
  function Submit(f: Form, outcome: WriteOutcome, now: nat): (s: Submitted<Form, TiendaDoc>)
    ensures Validate(f).Invalid? ==> s.write.None? && s.form == f
    ensures Validate(f) == Valid ==>
              s.write == Some(TiendaDoc(f.nombreTienda, Address(f), f.ciudad, f.region, now))
    ensures Validate(f) == Valid && outcome == Written ==> s.form == Empty
    ensures Validate(f) == Valid && outcome.WriteFailed? ==> s.form == f
  {
    if Validate(f).Invalid? then Submitted(f, None)
    else
      var doc := TiendaDoc(f.nombreTienda, Address(f), f.ciudad, f.region, now);
      Submitted(if outcome == Written then Empty else f, Some(doc))
  }

  /** The run of digits at the end of a string. */
  function TrailingDigits(s: string): (d: string)
    ensures |d| <= |s| && d == s[|s| - |d|..]
    ensures forall i :: 0 <= i < |d| ==> IsDigit(d[i])
  {
    if |s| > 0 && IsDigit(s[|s| - 1]) then TrailingDigits(s[..|s| - 1]) + [s[|s| - 1]] else []
  }

  lemma {:induction false} TrailingDigitsOfJoin(p: string, n: string)
    requires |p| > 0 && !IsDigit(p[|p| - 1])
    requires forall i :: 0 <= i < |n| ==> IsDigit(n[i])
    ensures TrailingDigits(p + n) == n
  {
    if |n| > 0 {
      assert (p + n)[..|p + n| - 1] == p + n[..|n| - 1];
      TrailingDigitsOfJoin(p, n[..|n| - 1]);
      assert n == n[..|n| - 1] + [n[|n| - 1]];
    } else {
      assert p + n == p;
    }
  }

  /** The street number of a valid form can be read back from the stored
      address alone, and the street is what precedes it and the space. */
  lemma AddressSplitsBack(f: Form)
    requires Validate(f) == Valid
    ensures TrailingDigits(Address(f)) == f.numeroDireccion
    ensures Address(f)[..|f.direccion|] == f.direccion
  {
    ValidNumberDigits(f);
    NumberReadBack(f.direccion, f.numeroDireccion);
    StreetReadBack(f.direccion, f.numeroDireccion);
  }

  lemma ValidNumberDigits(f: Form)
    requires Validate(f) == Valid
    ensures IsDigitString(f.numeroDireccion)
  {
  }

  /** The digits after the last space of a joined address are the street
      number. */
  lemma NumberReadBack(street: string, number: string)
    requires IsDigitString(number)
    ensures TrailingDigits(street + " " + number) == number
  {
    var p := street + " ";
    assert !IsDigit(p[|p| - 1]);
    TrailingDigitsOfJoin(p, number);
  }

  /** The street is the joined address's prefix of its own length. */
  lemma StreetReadBack(street: string, number: string)
    ensures (street + " " + number)[..|street|] == street
  {
  }

  /** Choosing the region first and then filling the other inputs makes an
      empty form valid, and submitting it writes the typed values with the
      street and number joined. */
  lemma FilledFormWrites(nombre: string, reg: string, ciudad: string, dir: string, num: string, now: nat)
    requires !IsBlank(nombre) && reg != "" && ciudad != "" && !IsBlank(dir) && IsDigitString(num)
    ensures var f := SetInput(SetInput(SetInput(SetInput(SetRegion(Empty, reg),
                       NombreTienda, nombre), Ciudad, ciudad), Direccion, dir), NumeroDireccion, num);
            && Validate(f) == Valid
            && Submit(f, Written, now).write == Some(TiendaDoc(nombre, dir + " " + num, ciudad, reg, now))
  {
  }

  /** After a completed write a second submit writes nothing. */
  lemma ResetFormInvalid(f: Form, now: nat, later: nat)
    requires Validate(f) == Valid
    ensures Validate(Submit(f, Written, now).form) == Invalid(NameRequired)
    ensures Submit(Submit(f, Written, now).form, Written, later).write.None?
  {
    BlankIffAllWhitespace("");
  }
}
