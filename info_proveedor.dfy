/** The descriptive texts of the listing entries. */
module InfoProveedor {
  import opened Comun
  import opened Criterios
  import T = Tecnicos
  import E = Empresas

  // ---------------------------------------------------------------------------
  // Descriptive texts (`buildTecnicoInfo`, `buildEmpresaInfo`)

  function SegmentoAnos(t: T.Fila): string
  {
    if t.anosExperiencia.Some? then "Años de experiencia: " + EnteroATexto(t.anosExperiencia.value) + ". "
    else ""
  }

  function SegmentoTrabajos(t: T.Fila): string
  {
    if t.totalTrabajosCompletados.Some? && t.totalTrabajosCompletados.value > 0
    then "Trabajos completados: " + EnteroATexto(t.totalTrabajosCompletados.value) + ". "
    else ""
  }

  function SegmentoCertificados(t: T.Fila): string
  {
    if t.certificados.Some? && t.certificados.value != "" then "Certificaciones: " + t.certificados.value + ". "
    else ""
  }

  function SegmentoRadio(t: T.Fila): string
  {
    if t.radioCobertura.Some? then "Radio de cobertura: " + EnteroATexto(t.radioCobertura.value) + " km."
    else ""
  }

  /** The technician's text: experience, completed jobs, certificates and
      coverage radius, in that order, each only when it is known. */
  function InfoTecnico(t: T.Fila): string
  {
    SegmentoAnos(t) + SegmentoTrabajos(t) + SegmentoCertificados(t) + SegmentoRadio(t)
  }

  /** `buildTecnicoInfo`: appends the segments one by one. */
  method ConstruirInfoTecnico(t: T.Fila) returns (info: string)
    ensures info == InfoTecnico(t)
  {
    info := "";
    if t.anosExperiencia.Some? {
      info := info + ("Años de experiencia: " + EnteroATexto(t.anosExperiencia.value) + ". ");
    }
    assert info == SegmentoAnos(t);
    if t.totalTrabajosCompletados.Some? && t.totalTrabajosCompletados.value > 0 {
      info := info + ("Trabajos completados: " + EnteroATexto(t.totalTrabajosCompletados.value) + ". ");
    }
    assert info == SegmentoAnos(t) + SegmentoTrabajos(t);
    if t.certificados.Some? && t.certificados.value != "" {
      info := info + ("Certificaciones: " + t.certificados.value + ". ");
    }
    assert info == SegmentoAnos(t) + SegmentoTrabajos(t) + SegmentoCertificados(t);
    if t.radioCobertura.Some? {
      info := info + ("Radio de cobertura: " + EnteroATexto(t.radioCobertura.value) + " km.");
    }
  }

  /** The text is empty exactly when no segment applies. */
  lemma InfoTecnicoVacia(t: T.Fila)
    ensures InfoTecnico(t) == "" <==>
      t.anosExperiencia.None?
      && (t.totalTrabajosCompletados.None? || t.totalTrabajosCompletados.value <= 0)
      && (t.certificados.None? || t.certificados.value == "")
      && t.radioCobertura.None?
  {
  }

  /** Where each of four consecutive pieces sits in their concatenation. */
  lemma {:induction false} Partes(a: string, b: string, c: string, d: string)
    ensures a <= a + b + c + d
    ensures (a + b + c + d)[|a|..|a| + |b|] == b
    ensures (a + b + c + d)[|a| + |b|..|a| + |b| + |c|] == c
  {
    var s := a + b + c + d;
    assert s == a + (b + c + d);
    assert s[|a|..] == b + c + d;
    assert (b + c + d)[..|b|] == b;
    assert s[|a| + |b|..] == c + d;
    assert (c + d)[..|c|] == c;
  }

  /** The first character of a concatenation whose first non-empty piece is
      `x`, and the last character of one whose last non-empty piece is `x`. */
  lemma {:induction false} Extremos(a: string, b: string, c: string, d: string)
    ensures a != "" ==> (a + b + c + d)[0] == a[0]
    ensures a == "" && b != "" ==> (a + b + c + d)[0] == b[0]
    ensures a == "" && b == "" && c != "" ==> (a + b + c + d)[0] == c[0]
    ensures a == "" && b == "" && c == "" ==> a + b + c + d == d
    ensures d != "" ==> (a + b + c + d)[|a + b + c + d| - 1] == d[|d| - 1]
    ensures d == "" && c != "" ==> (a + b + c + d)[|a + b + c + d| - 1] == c[|c| - 1]
    ensures d == "" && c == "" && b != "" ==> (a + b + c + d)[|a + b + c + d| - 1] == b[|b| - 1]
    ensures d == "" && c == "" && b == "" ==> a + b + c + d == a
  {
    if a == "" && b == "" && c == "" {
      assert a + b + c + d == d;
    }
    if d == "" && c == "" && b == "" {
      assert a + b + c + d == a;
    }
  }

  /** The first and last character of each segment that is not empty. */
  lemma Bordes(t: T.Fila)
    ensures SegmentoAnos(t) != "" ==> SegmentoAnos(t)[0] == 'A' && SegmentoAnos(t)[|SegmentoAnos(t)| - 1] == ' '
    ensures SegmentoTrabajos(t) != "" ==> SegmentoTrabajos(t)[0] == 'T' && SegmentoTrabajos(t)[|SegmentoTrabajos(t)| - 1] == ' '
    ensures SegmentoCertificados(t) != "" ==>
      SegmentoCertificados(t)[0] == 'C' && SegmentoCertificados(t)[|SegmentoCertificados(t)| - 1] == ' '
    ensures SegmentoRadio(t) != "" ==> SegmentoRadio(t)[0] == 'R' && SegmentoRadio(t)[|SegmentoRadio(t)| - 1] == '.'
  {
  }

  /** The text opens with the experience segment, the only one beginning
      with an `A`, exactly when the years are known. */
  lemma InfoTecnicoAnos(t: T.Fila)
    ensures t.anosExperiencia.Some? <==> InfoTecnico(t) != "" && InfoTecnico(t)[0] == 'A'
    ensures t.anosExperiencia.Some? ==>
      "Años de experiencia: " + EnteroATexto(t.anosExperiencia.value) + ". " <= InfoTecnico(t)
  {
    Bordes(t);
    Partes(SegmentoAnos(t), SegmentoTrabajos(t), SegmentoCertificados(t), SegmentoRadio(t));
    Extremos(SegmentoAnos(t), SegmentoTrabajos(t), SegmentoCertificados(t), SegmentoRadio(t));
  }

  /** The text closes with the radius segment, the only one ending in a full
      stop, exactly when the radius is known. */
  lemma InfoTecnicoRadio(t: T.Fila)
    ensures t.radioCobertura.Some? <==> InfoTecnico(t) != "" && InfoTecnico(t)[|InfoTecnico(t)| - 1] == '.'
  {
    Bordes(t);
    Extremos(SegmentoAnos(t), SegmentoTrabajos(t), SegmentoCertificados(t), SegmentoRadio(t));
  }

  /** A positive completed-jobs count and non-empty certificates each show
      up with their value. */
  lemma InfoTecnicoContiene(t: T.Fila)
    ensures t.totalTrabajosCompletados.Some? && t.totalTrabajosCompletados.value > 0 ==>
      Contiene(InfoTecnico(t), "Trabajos completados: " + EnteroATexto(t.totalTrabajosCompletados.value) + ". ")
    ensures t.certificados.Some? && t.certificados.value != "" ==>
      Contiene(InfoTecnico(t), "Certificaciones: " + t.certificados.value + ". ")
  {
    var a, b, c, d := SegmentoAnos(t), SegmentoTrabajos(t), SegmentoCertificados(t), SegmentoRadio(t);
    Partes(a, b, c, d);
    ContieneEn(InfoTecnico(t), b, |a|);
    ContieneEn(InfoTecnico(t), c, |a| + |b|);
  }

  /** A completed-jobs count of zero or less reads as no count, and empty
      certificates read as none. */
  lemma InfoTecnicoNulos(t: T.Fila)
    ensures t.totalTrabajosCompletados.Some? && t.totalTrabajosCompletados.value <= 0 ==>
      InfoTecnico(t) == InfoTecnico(t.(totalTrabajosCompletados := None))
    ensures t.certificados == Some("") ==> InfoTecnico(t) == InfoTecnico(t.(certificados := None))
  {
  }

  function Cabecera(ts: seq<T.Fila>, subcategoriaId: int): string
  {
    "Técnicos disponibles en esta categoría: " + NatATexto(Contar(ts, CalificaEn(subcategoriaId))) + ". "
  }

  function SegmentoRut(e: E.Fila): string
  {
    if e.rut.Some? && e.rut.value != "" then "RUT: " + e.rut.value + ". " else ""
  }

  function SegmentoSitio(e: E.Fila): string
  {
    if e.sitioWeb.Some? && e.sitioWeb.value != "" then "Sitio web: " + e.sitioWeb.value + "." else ""
  }

  /** The company's text: the number of qualifying technicians, always, then
      the tax number and the web site when they are non-empty. */
  function InfoEmpresa(e: E.Fila, ts: seq<T.Fila>, subcategoriaId: int): string
  {
    Cabecera(ts, subcategoriaId) + SegmentoRut(e) + SegmentoSitio(e)
  }

  /** `buildEmpresaInfo`: counts the qualifying technicians, then appends. */
  method ConstruirInfoEmpresa(e: E.Fila, ts: seq<T.Fila>, subcategoriaId: int) returns (info: string)
    ensures info == InfoEmpresa(e, ts, subcategoriaId)
  {
    var numeroTecnicos := Contar(ts, CalificaEn(subcategoriaId));
    info := "Técnicos disponibles en esta categoría: " + NatATexto(numeroTecnicos) + ". ";
    assert info == Cabecera(ts, subcategoriaId);
    if e.rut.Some? && e.rut.value != "" {
      info := info + ("RUT: " + e.rut.value + ". ");
    }
    assert info == Cabecera(ts, subcategoriaId) + SegmentoRut(e);
    if e.sitioWeb.Some? && e.sitioWeb.value != "" {
      info := info + ("Sitio web: " + e.sitioWeb.value + ".");
    }
  }

  lemma {:induction false} Extremos3(a: string, b: string, c: string)
    ensures a <= a + b + c
    ensures c != "" ==> (a + b + c)[|a + b + c| - 1] == c[|c| - 1]
    ensures c == "" && b != "" ==> (a + b + c)[|a + b + c| - 1] == b[|b| - 1]
    ensures c == "" && b == "" ==> a + b + c == a
  {
    assert a + b + c == a + (b + c);
    if c == "" && b == "" {
      assert a + b + c == a;
    }
  }

  /** The count of qualifying technicians heads the text even when it is
      zero, and the text ends with a full stop, which only the web-site
      segment does, exactly when the company has a non-empty web site. */
  lemma InfoEmpresaSegmentos(e: E.Fila, ts: seq<T.Fila>, subcategoriaId: int)
    ensures "Técnicos disponibles en esta categoría: " + NatATexto(|Filtrar(ts, CalificaEn(subcategoriaId))|) + ". "
      <= InfoEmpresa(e, ts, subcategoriaId)
    ensures var info := InfoEmpresa(e, ts, subcategoriaId);
      (e.sitioWeb.Some? && e.sitioWeb.value != "") <==> info[|info| - 1] == '.'
  {
    Extremos3(Cabecera(ts, subcategoriaId), SegmentoRut(e), SegmentoSitio(e));
  }

  /** An empty tax number or web site reads as none. */
  lemma InfoEmpresaVacios(e: E.Fila, ts: seq<T.Fila>, subcategoriaId: int)
    ensures e.rut == Some("") ==> InfoEmpresa(e, ts, subcategoriaId) == InfoEmpresa(e.(rut := None), ts, subcategoriaId)
    ensures e.sitioWeb == Some("") ==>
      InfoEmpresa(e, ts, subcategoriaId) == InfoEmpresa(e.(sitioWeb := None), ts, subcategoriaId)
  {
  }
}
