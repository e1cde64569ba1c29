/** The records exchanged with the backend: a chamada (roll-call session) and
    the custom input fields an administrator attaches to it. */
module ChamadaModel {

  /** A custom input definition; `kind` is the string tag the program keeps in
      its `type` field ("text", "dropdown", ...), and `labelText` is its `label`
      (a reserved word in Dafny). */
  datatype CustomInput = CustomInput(
    id: string,
    idChamada: string,
    labelText: string,
    kind: string,
    placeholder: string)

  /** A numeric field of a chamada. The record declares these as numbers, but
      the editor's change handler stores the text typed into an input, so after
      an edit the field holds a string. */
  datatype Scalar = Number(n: real) | Text(s: string)

  datatype Chamada = Chamada(
    id: string,
    nome: string,
    dataInicio: string,
    dataFim: string,
    lag: Scalar,
    long: Scalar,
    toleranceMeters: Scalar,
    ativa: bool,
    customInputs: seq<CustomInput>)
}
