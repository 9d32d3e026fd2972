/** The request body of `POST /predict`: a record of 21 clinical answers, and
    its flattening into the fixed-order vector the classifier was trained on
    (main.py:13-34, main.py:143-165). */
module FeatureVector {

  /** Number of positions the classifier expects. */
  const Width: nat := 21

  /** One identifier per clinical question, named after the record's fields. */
  datatype Field =
    | OtitSayisiGe4       // otitis episodes in one year >= 4
    | SinuzitSayisiGe2    // sinusitis episodes in one year >= 2
    | IkiAydanFazlaAb     // oral antibiotics for more than two months
    | PnomoniGe2          // >= 2 pneumonias in one year
    | KiloAlamama         // failure to thrive
    | TekrarlayanApse     // recurrent deep skin or organ abscesses
    | PamukcukMantar      // persistent thrush or fungal infection
    | IvAntibiyotik       // infections needing intravenous antibiotics
    | DerinEnfGe2         // >= 2 deep infections including septicaemia
    | AileOykusuBoy       // family history of immunodeficiency
    | Cinsiyet            // sex
    | Yas                 // age (the one float field)
    | HastaneYatis        // hospitalisation
    | BcgLenfadenopati    // lymphadenopathy after BCG vaccination
    | KronikCilt          // chronic skin problems
    | GobekKordonGunu     // day the umbilical cord separated
    | KonjenitalKalp      // congenital heart disease
    | KronikIshal         // chronic diarrhoea
    | YogunBakim          // intensive-care stay
    | Akrabalik           // parental consanguinity
    | AileErkenOlum       // early death in the family

  /** The declared column order the classifier was trained on. */
  const Schema: seq<Field> := [
    OtitSayisiGe4, SinuzitSayisiGe2, IkiAydanFazlaAb, PnomoniGe2, KiloAlamama,
    TekrarlayanApse, PamukcukMantar, IvAntibiyotik, DerinEnfGe2, AileOykusuBoy,
    Cinsiyet, Yas, HastaneYatis, BcgLenfadenopati, KronikCilt,
    GobekKordonGunu, KonjenitalKalp, KronikIshal, YogunBakim, Akrabalik,
    AileErkenOlum
  ]

  /** The validated request record. Every field but `yas` is a Python `int`;
      `yas` is a `float`, modelled as a real. */
  datatype Features = Features(
    otitSayisiGe4: int,
    sinuzitSayisiGe2: int,
    ikiAydanFazlaAb: int,
    pnomoniGe2: int,
    kiloAlamama: int,
    tekrarlayanApse: int,
    pamukcukMantar: int,
    ivAntibiyotik: int,
    derinEnfGe2: int,
    aileOykusuBoy: int,
    cinsiyet: int,
    yas: real,
    hastaneYatis: int,
    bcgLenfadenopati: int,
    kronikCilt: int,
    gobekKordonGunu: int,
    konjenitalKalp: int,
    kronikIshal: int,
    yogunBakim: int,
    akrabalik: int,
    aileErkenOlum: int)

  /** The record a request gets when it omits every field: `0` for the integer
      fields and `0.0` for the age. */
  function Default(): Features {
    Features(0, 0, 0, 0, 0, 0, 0, 0, 0, 0, 0, 0.0, 0, 0, 0, 0, 0, 0, 0, 0, 0)
  }

  /** The value of one named field, as the classifier sees it. */
  function Get(f: Features, fd: Field): real {
    match fd
    case OtitSayisiGe4 => f.otitSayisiGe4 as real
    case SinuzitSayisiGe2 => f.sinuzitSayisiGe2 as real
    case IkiAydanFazlaAb => f.ikiAydanFazlaAb as real
    case PnomoniGe2 => f.pnomoniGe2 as real
    case KiloAlamama => f.kiloAlamama as real
    case TekrarlayanApse => f.tekrarlayanApse as real
    case PamukcukMantar => f.pamukcukMantar as real
    case IvAntibiyotik => f.ivAntibiyotik as real
    case DerinEnfGe2 => f.derinEnfGe2 as real
    case AileOykusuBoy => f.aileOykusuBoy as real
    case Cinsiyet => f.cinsiyet as real
    case Yas => f.yas
    case HastaneYatis => f.hastaneYatis as real
    case BcgLenfadenopati => f.bcgLenfadenopati as real
    case KronikCilt => f.kronikCilt as real
    case GobekKordonGunu => f.gobekKordonGunu as real
    case KonjenitalKalp => f.konjenitalKalp as real
    case KronikIshal => f.kronikIshal as real
    case YogunBakim => f.yogunBakim as real
    case Akrabalik => f.akrabalik as real
    case AileErkenOlum => f.aileErkenOlum as real
  }

  /** The position of a field in the vector: the schema read backwards. */
  function Index(fd: Field): (i: nat)
    ensures i < |Schema| && Schema[i] == fd
  {
    match fd
    case OtitSayisiGe4 => 0
    case SinuzitSayisiGe2 => 1
    case IkiAydanFazlaAb => 2
    case PnomoniGe2 => 3
    case KiloAlamama => 4
    case TekrarlayanApse => 5
    case PamukcukMantar => 6
    case IvAntibiyotik => 7
    case DerinEnfGe2 => 8
    case AileOykusuBoy => 9
    case Cinsiyet => 10
    case Yas => 11
    case HastaneYatis => 12
    case BcgLenfadenopati => 13
    case KronikCilt => 14
    case GobekKordonGunu => 15
    case KonjenitalKalp => 16
    case KronikIshal => 17
    case YogunBakim => 18
    case Akrabalik => 19
    case AileErkenOlum => 20
  }

  /** The vector handed to the classifier, written out field by field in the
      declared order. */
  function Assemble(f: Features): (v: seq<real>)
    ensures |v| == Width
    ensures forall i :: 0 <= i < |v| ==> v[i] == Get(f, Schema[i])
  {
    [ f.otitSayisiGe4 as real,
      f.sinuzitSayisiGe2 as real,
      f.ikiAydanFazlaAb as real,
      f.pnomoniGe2 as real,
      f.kiloAlamama as real,
      f.tekrarlayanApse as real,
      f.pamukcukMantar as real,
      f.ivAntibiyotik as real,
      f.derinEnfGe2 as real,
      f.aileOykusuBoy as real,
      f.cinsiyet as real,
      f.yas,
      f.hastaneYatis as real,
      f.bcgLenfadenopati as real,
      f.kronikCilt as real,
      f.gobekKordonGunu as real,
      f.konjenitalKalp as real,
      f.kronikIshal as real,
      f.yogunBakim as real,
      f.akrabalik as real,
      f.aileErkenOlum as real ]
  }

  /** Every schema position names a different field, so the schema is a
      bijection between the 21 fields and the positions 0..20. */
  lemma SchemaIsBijection()
    ensures |Schema| == Width
    ensures forall i :: 0 <= i < |Schema| ==> Index(Schema[i]) == i
    ensures forall i, j :: 0 <= i < j < |Schema| ==> Schema[i] != Schema[j]
  {
  }

  /** A field is found in the vector at its schema position; age sits at
      index 11 and the umbilical-cord day at index 15. */
  lemma FieldAtIndex(f: Features, fd: Field)
    ensures Assemble(f)[Index(fd)] == Get(f, fd)
    ensures Assemble(f)[11] == f.yas
    ensures Assemble(f)[15] == f.gobekKordonGunu as real
  {
  }

  /** An all-default record becomes 21 zeros. */
  lemma DefaultIsZeros()
    ensures Assemble(Default()) == seq(Width, _ => 0.0)
  {
  }

  /** Nothing is lost in the flattening: two records with the same vector are
      the same record. */
  lemma AssembleInjective(a: Features, b: Features)
    requires Assemble(a) == Assemble(b)
    ensures a == b
  {
  }
}
