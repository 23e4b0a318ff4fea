/**
  The three article outlines the wizard offers in step 3
  (`get_structure_options`) and the lookup of the option the user picked.
 */
module Structures {
  import opened Wrappers

  /** One outline: its numeric id, its display name and its seven section headers. */
  datatype StructureOption = StructureOption(id: nat, name: string, headers: seq<string>)

  /** `part` occurs in `s` starting at position `i`. */
  predicate OccursAt(s: string, part: string, i: int)
  {
    0 <= i <= |s| - |part| && s[i..i + |part|] == part
  }

  /** `part` occurs somewhere in `s` (Python's `part in s`). */
  predicate Contains(s: string, part: string)
  {
    exists i :: 0 <= i <= |s| && OccursAt(s, part, i)
  }

  /** `prefix + kw + suffix` and `prefix + kw` contain `kw`, right after the prefix. */
  lemma InfixContained(prefix: string, kw: string, suffix: string)
    ensures Contains(prefix + kw + suffix, kw)
    ensures Contains(prefix + kw, kw)
  {
    assert OccursAt(prefix + kw + suffix, kw, |prefix|);
    assert OccursAt(prefix + kw, kw, |prefix|);
  }

  /** The fixed parts of the three outlines. */
  const EducationalName := "Estructura Educativa"
  const EducationalIntro := "Introducción: ¿Qué es "
  const EducationalWhy := "Por qué es importante "
  const EducationalRest: seq<string> := [
    "Guía paso a paso",
    "Errores comunes a evitar",
    "Herramientas recomendadas",
    "Casos de éxito",
    "Conclusión y próximos pasos"
  ]
  const CommercialName := "Estructura Comercial"
  const CommercialIntro := "El problema con "
  const CommercialRest: seq<string> := [
    "La solución definitiva",
    "Beneficios comprobados",
    "Cómo empezar hoy mismo",
    "Preguntas frecuentes",
    "Testimonios y casos",
    "Llamada a la acción"
  ]
  const ComparativeName := "Estructura Comparativa"
  const ComparativeIntro := "Introducción a "
  const ComparativeRest: seq<string> := [
    "Método tradicional vs método moderno",
    "Ventajas y desventajas",
    "Cuál elegir según tu situación",
    "Implementación práctica",
    "Resultados esperados",
    "Recomendación final"
  ]

  /** `get_structure_options(kw)`: an educational, a commercial and a
      comparative outline, with ids 1, 2 and 3 in that order, seven headers
      each, and the keyword inside the first header of every option. */
  function StructureOptions(kw: string): (r: seq<StructureOption>)
    ensures |r| == 3
    ensures forall i :: 0 <= i < |r| ==> r[i].id == i + 1 && |r[i].headers| == 7
    ensures forall i :: 0 <= i < |r| ==> Contains(r[i].headers[0], kw)
  {
    InfixContained(EducationalIntro, kw, "?");
    InfixContained(CommercialIntro, kw, "");
    InfixContained(ComparativeIntro, kw, "");
    [
      StructureOption(1, EducationalName,
        [EducationalIntro + kw + "?", EducationalWhy + kw] + EducationalRest),
      StructureOption(2, CommercialName, [CommercialIntro + kw] + CommercialRest),
      StructureOption(3, ComparativeName, [ComparativeIntro + kw] + ComparativeRest)
    ]
  }

  /** The keyword only shapes the first header of each option, and the
      second header of the educational one: for any two keywords the ids,
      names and every other header agree. */
  lemma StructureOptionsKeywordIndependent(kw1: string, kw2: string)
    ensures forall i :: 0 <= i < 3 ==>
      StructureOptions(kw1)[i].id == StructureOptions(kw2)[i].id &&
      StructureOptions(kw1)[i].name == StructureOptions(kw2)[i].name
    ensures forall i, j :: 0 <= i < 3 && 2 <= j < 7 ==>
      StructureOptions(kw1)[i].headers[j] == StructureOptions(kw2)[i].headers[j]
    ensures forall i :: 1 <= i < 3 ==>
      StructureOptions(kw1)[i].headers[1] == StructureOptions(kw2)[i].headers[1]
  {
  }

  /** Python's `next(o for o in options if o["id"] == id)`: the first option
      carrying `id`, or `None` where Python would raise `StopIteration`. */
  function FirstWithId(options: seq<StructureOption>, id: nat): (r: Option<StructureOption>)
    ensures r.Some? ==> r.value in options && r.value.id == id
    ensures r.None? <==> forall k :: 0 <= k < |options| ==> options[k].id != id
    ensures |options| > 0 && options[0].id == id ==> r == Some(options[0])
    ensures r.Some? ==>
      exists k :: 0 <= k < |options| && options[k] == r.value && (forall j :: 0 <= j < k ==> options[j].id != id)
  {
    if options == [] then None
    else if options[0].id == id then Some(options[0])
    else FirstWithId(options[1..], id)
  }

  /** Every id the step-3 radio offers selects the option at that position. */
  lemma ChosenOption(kw: string, sel: nat)
    requires 1 <= sel <= 3
    ensures FirstWithId(StructureOptions(kw), sel) == Some(StructureOptions(kw)[sel - 1])
  {
  }
}
