/**
 The department quiz of the map component: the GeoJSON and the specialty
 lookup are loaded independently; a click on a department resolves its
 specialty, marks the department as clicked, hides the answer and makes the
 department the selection; the "Voir la réponse" button reveals the answer;
 the fill colour of each department follows whether it was clicked.

 The click handlers are closures bound when the GeoJSON layer is created,
 and the layer is created again only when the number of clicked departments
 changes. A click therefore resolves its specialty in the lookup as it was
 when the layer was last created, not in the current one.
 */
module FranceMap {
  import opened Options
  import opened Specialties

  /** The fact shown when the lookup has no specialty for a code. */
  const NotFound: string := "Spécialité non trouvée"

  /** Fill colour of a clicked department (red). */
  const VisitedColor: string := "#ef4444"

  /** Fill colour of a department not yet clicked (green). */
  const UnvisitedColor: string := "#22c55e"

  /** The department shown in the overlay card. */
  datatype Selection = Selection(code: string, nom: string, specialite: string)

  /** The path style given to each department's polygon. */
  datatype PathStyle = PathStyle(
    fillColor: string,
    weight: int,
    opacity: real,
    color: string,
    dashArray: string,
    fillOpacity: real)

  /** `specialties[code] || NotFound`: an absent entry and an empty one are
      both falsy and give the sentinel. */
  function Resolve(specialties: map<string, string>, code: string): (fact: string)
    ensures fact != ""
    ensures fact == NotFound || (code in specialties && fact == specialties[code])
    ensures code in specialties && specialties[code] != "" ==> fact == specialties[code]
    ensures code !in specialties ==> fact == NotFound
  {
    if code in specialties && specialties[code] != "" then specialties[code] else NotFound
  }

  /** The style of a department: red once clicked, green before; every other
      field is the same for all departments. */
  function MapStyle(clicked: set<string>, code: string): (s: PathStyle)
    ensures s.fillColor == VisitedColor <==> code in clicked
    ensures s.fillColor == UnvisitedColor <==> code !in clicked
    ensures s.weight == 1 && s.opacity == 1.0 && s.color == "white"
    ensures s.dashArray == "3" && s.fillOpacity == 0.7
  {
    PathStyle(
      fillColor := if code in clicked then VisitedColor else UnvisitedColor,
      weight := 1,
      opacity := 1.0,
      color := "white",
      dashArray := "3",
      fillOpacity := 0.7)
  }

  /** A click handler holding the lookup built from `rows` shows, for
      `code`, the specialty of the last row that wrote `code`, or the sentinel
      if no row did. */
  lemma ResolveAfterLoad(rows: seq<Row>, code: string)
    ensures (forall i :: !WritesCode(rows, code, i)) ==> Resolve(Fold(rows), code) == NotFound
    ensures forall i :: LastWrite(rows, code, i) ==> Resolve(Fold(rows), code) == rows[i].specialite
  {
    FoldKeys(rows, code);
    FoldValuesNonEmpty(rows);
    forall i | LastWrite(rows, code, i)
      ensures Resolve(Fold(rows), code) == rows[i].specialite
    {
      FoldLastWriteWins(rows, code, i);
    }
  }

  /** A click turns the clicked department red and leaves every other
      department's style as it was. */
  lemma StyleAfterClick(clicked: set<string>, code: string, other: string)
    ensures MapStyle(clicked + {code}, code).fillColor == VisitedColor
    ensures other != code ==> MapStyle(clicked + {code}, other) == MapStyle(clicked, other)
  {
  }

  /** The quiz state of the map component. */
  class QuizMap {
    /** The GeoJSON has arrived, so the departments are drawn and clickable. */
    var geoJsonLoaded: bool
    /** The code to specialty lookup. */
    var specialties: map<string, string>
    /** The lookup captured by the click handlers of the drawn layer: the
        value of `specialties` when the layer was last created. */
    var handlerLookup: map<string, string>
    /** Codes of the departments clicked so far. */
    var clickedDepartments: set<string>
    /** The department shown in the overlay card, if any. */
    var selectedDepartment: Option<Selection>
    /** The specialty of the selection is shown rather than hidden behind the button. */
    var isSpecialtyRevealed: bool

    ghost predicate Valid()
      reads this
    {
      && (isSpecialtyRevealed ==> selectedDepartment.Some?)
      && (selectedDepartment.Some? ==> selectedDepartment.value.code in clickedDepartments)
      && (!geoJsonLoaded ==> clickedDepartments == {} && selectedDepartment.None?)
      && (forall c :: c in specialties ==> specialties[c] != "")
      && (forall c :: c in handlerLookup ==> handlerLookup[c] != "")
    }

    constructor ()
      ensures Valid()
      ensures !geoJsonLoaded && specialties == map[] && handlerLookup == map[]
      ensures clickedDepartments == {} && selectedDepartment == None && !isSpecialtyRevealed
    {
      geoJsonLoaded := false;
      specialties := map[];
      handlerLookup := map[];
      clickedDepartments := {};
      selectedDepartment := None;
      isSpecialtyRevealed := false;
    }

    /** The GeoJSON fetch resolved: the layer is created and its click
        handlers capture the current lookup. The fetch runs once, so this happens
        at most once; a failed fetch is only logged and changes nothing. */
    method GeoJsonLoaded()
      requires Valid() && !geoJsonLoaded
      modifies this`geoJsonLoaded, this`handlerLookup
      ensures Valid() && geoJsonLoaded
      ensures handlerLookup == specialties
    {
      geoJsonLoaded := true;
      handlerLookup := specialties;
    }

    /** The CSV `complete` callback: the lookup becomes the fold of the rows.
        The handlers of a layer already drawn keep the lookup they captured. */
    method SpecialtiesLoaded(rows: seq<Row>)
      requires Valid()
      modifies this`specialties
      ensures Valid()
      ensures specialties == Fold(rows)
    {
      var m := BuildSpecialtyMap(rows);
      FoldValuesNonEmpty(rows);
      specialties := m;
    }

    /** A click on a drawn department. The specialty is resolved in the
        handler's captured lookup. A click that grows the clicked set changes
        the layer's key, so the layer is created again and its new handlers
        capture the current lookup. */
    method Click(code: string, nom: string)
      requires Valid() && geoJsonLoaded
      modifies this
      ensures Valid()
      ensures clickedDepartments == old(clickedDepartments) + {code}
      ensures !isSpecialtyRevealed
      ensures selectedDepartment == Some(Selection(code, nom, Resolve(old(handlerLookup), code)))
      ensures handlerLookup == if code in old(clickedDepartments) then old(handlerLookup) else specialties
      ensures geoJsonLoaded && specialties == old(specialties)
    {
      var specialty := Resolve(handlerLookup, code);
      var redrawn := code !in clickedDepartments;
      clickedDepartments := clickedDepartments + {code};
      isSpecialtyRevealed := false;
      selectedDepartment := Some(Selection(code, nom, specialty));
      if redrawn {
        handlerLookup := specialties;
      }
    }

    /** The "Voir la réponse" button, drawn only while a department is selected. */
    method Reveal()
      requires Valid() && selectedDepartment.Some?
      modifies this`isSpecialtyRevealed
      ensures Valid() && isSpecialtyRevealed
    {
      isSpecialtyRevealed := true;
    }
  }

  /** A session where the GeoJSON arrives before the CSV, whose one row is
      for "01". The first click on "01" still uses the empty lookup captured
      when the layer was drawn; its answer is revealed twice. Then "971",
      which the lookup lacks, is clicked, and then "01" again, whose handler
      was recreated after the first click and now finds the specialty. */
  method QuizSession() returns (firstFact: string, shownAfterReveal: bool,
                                secondFact: string, shownAfterNextClick: bool,
                                thirdFact: string, clicked: set<string>)
    ensures firstFact == NotFound && shownAfterReveal
    ensures secondFact == NotFound && !shownAfterNextClick
    ensures thirdFact == "Volailles de Bresse"
    ensures clicked == {"01", "971"}
  {
    var quiz := new QuizMap();
    quiz.GeoJsonLoaded();
    quiz.SpecialtiesLoaded([Row("01", "Ain", "Volailles de Bresse")]);
    quiz.Click("01", "Ain");
    firstFact := quiz.selectedDepartment.value.specialite;
    quiz.Reveal();
    quiz.Reveal();
    shownAfterReveal := quiz.isSpecialtyRevealed;
    quiz.Click("971", "Guadeloupe");
    shownAfterNextClick := quiz.isSpecialtyRevealed;
    secondFact := quiz.selectedDepartment.value.specialite;
    quiz.Click("01", "Ain");
    thirdFact := quiz.selectedDepartment.value.specialite;
    clicked := quiz.clickedDepartments;
  }

  /** A session where the CSV arrives before the GeoJSON: the layer's
      handlers capture the loaded lookup, so the first click finds the
      specialty. */
  method LoadedFirstSession() returns (fact: string, shown: bool)
    ensures fact == "Volailles de Bresse" && !shown
  {
    var quiz := new QuizMap();
    quiz.SpecialtiesLoaded([Row("01", "Ain", "Volailles de Bresse")]);
    quiz.GeoJsonLoaded();
    quiz.Click("01", "Ain");
    fact := quiz.selectedDepartment.value.specialite;
    shown := quiz.isSpecialtyRevealed;
  }
}
