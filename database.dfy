/**
 * The persistent side of the task store: the two closed enumerations and the
 * `tasks` table row with its column defaults and nullability
 * (backend/models/database.py).
 */
module Database {
  import opened Wrappers

  /** A clock reading; the clock itself is outside the model and is passed in. */
  type Timestamp = int

  /** The six task categories (an Eisenhower-style matrix plus two extras). */
  datatype Categoria = IU | INU | U | NU | InAttesa | LongTerm

  /** The three lifecycle states of a task. */
  datatype Stato = Aperto | Earning | Completato

  /** Every category, in declaration order. */
  const Categorie: seq<Categoria> := [IU, INU, U, NU, InAttesa, LongTerm]

  /** Every state, in declaration order. */
  const Stati: seq<Stato> := [Aperto, Earning, Completato]

  /** The string each category is stored and exchanged as. */
  function CategoriaValue(c: Categoria): string
  {
    match c
    case IU => "IU"
    case INU => "INU"
    case U => "U"
    case NU => "NU"
    case InAttesa => "In Attesa"
    case LongTerm => "Long-term"
  }

  /** The category whose value is `s`, if there is one. */
  function ParseCategoria(s: string): Option<Categoria>
  {
    if s == "IU" then Some(IU)
    else if s == "INU" then Some(INU)
    else if s == "U" then Some(U)
    else if s == "NU" then Some(NU)
    else if s == "In Attesa" then Some(InAttesa)
    else if s == "Long-term" then Some(LongTerm)
    else None
  }

  /** The string each state is stored and exchanged as. */
  function StatoValue(s: Stato): string
  {
    match s
    case Aperto => "aperto"
    case Earning => "earning"
    case Completato => "completato"
  }

  /** The state whose value is `s`, if there is one. */
  function ParseStato(s: string): Option<Stato>
  {
    if s == "aperto" then Some(Aperto)
    else if s == "earning" then Some(Earning)
    else if s == "completato" then Some(Completato)
    else None
  }

  /** `Categorie` lists every category exactly once, so there are exactly six. */
  lemma CategorieExhaustive()
    ensures |Categorie| == 6
    ensures forall c: Categoria :: c in Categorie
    ensures forall i, j :: 0 <= i < j < |Categorie| ==> Categorie[i] != Categorie[j]
  {
    forall c: Categoria ensures c in Categorie {
      match c
      case IU => assert Categorie[0] == c;
      case INU => assert Categorie[1] == c;
      case U => assert Categorie[2] == c;
      case NU => assert Categorie[3] == c;
      case InAttesa => assert Categorie[4] == c;
      case LongTerm => assert Categorie[5] == c;
    }
  }

  /** `Stati` lists every state exactly once, so there are exactly three. */
  lemma StatiExhaustive()
    ensures |Stati| == 3
    ensures forall s: Stato :: s in Stati
    ensures forall i, j :: 0 <= i < j < |Stati| ==> Stati[i] != Stati[j]
  {
    forall s: Stato ensures s in Stati {
      match s
      case Aperto => assert Stati[0] == s;
      case Earning => assert Stati[1] == s;
      case Completato => assert Stati[2] == s;
    }
  }

  /** Parsing and printing a category are inverse: the value of a category
      parses back to it, and a string that parses is that category's value. */
  lemma CategoriaRoundTrip(c: Categoria, s: string)
    ensures ParseCategoria(CategoriaValue(c)) == Some(c)
    ensures ParseCategoria(s) == Some(c) <==> s == CategoriaValue(c)
  {
  }

  /** Parsing and printing a state are inverse, in both directions. */
  lemma StatoRoundTrip(t: Stato, s: string)
    ensures ParseStato(StatoValue(t)) == Some(t)
    ensures ParseStato(s) == Some(t) <==> s == StatoValue(t)
  {
  }

  /** Default category: of the `categoria` column, and of a create payload. */
  const DefaultCategoria: Categoria := INU

  /** Default state: of the `stato` column, and of a response. */
  const DefaultStato: Stato := Aperto

  /**
   * One row of the `tasks` table, as the ORM object holds it. A field is an
   * Option where the object can hold None: `titolo` is declared NOT NULL, so a
   * None there is refused when the row is committed; `categoria`, `dettagli`,
   * `outcome` and `completed_at` are nullable columns. No operation ever
   * writes None into `stato` or `created_at`, so those are plain values.
   */
  datatype TaskDB = TaskDB(
    id: int,
    titolo: Option<string>,
    categoria: Option<Categoria>,
    dettagli: Option<string>,
    outcome: Option<string>,
    stato: Stato,
    createdAt: Timestamp,
    completedAt: Option<Timestamp>)

  /** The row the ORM inserts for `TaskDB(titolo=, categoria=, dettagli=, created_at=)`
      under the primary key `id`: the columns not passed take their defaults. */
  function NewRow(id: int, titolo: string, categoria: Categoria, dettagli: Option<string>,
                  createdAt: Timestamp): TaskDB
  {
    TaskDB(id, Some(titolo), Some(categoria), dettagli, None, DefaultStato, createdAt, None)
  }
}
