/** The translation context of client/hooks/use-language.tsx: the nine
    available languages, the current language (French until a saved choice
    is loaded), its configuration and text direction, and the lookup `t`
    with its French and then literal-key fallback. The storage slot is a
    field. The translation tables of this file follow the logic. */
module UseLanguage {
  import opened Common

  datatype LanguageConfig = LanguageConfig(code: string, caption: string, flag: string, rtl: bool)

  /** `AVAILABLE_LANGUAGES`, French first; only Arabic is right to left. */
  const AvailableLanguages: seq<LanguageConfig> := [
    LanguageConfig("fr", "Français", "🇫🇷", false),
    LanguageConfig("en", "English", "🇬🇧", false),
    LanguageConfig("de", "Deutsch", "🇩🇪", false),
    LanguageConfig("es", "Español", "🇪🇸", false),
    LanguageConfig("it", "Italiano", "🇮🇹", false),
    LanguageConfig("pt", "Português", "🇵🇹", false),
    LanguageConfig("nl", "Nederlands", "🇳🇱", false),
    LanguageConfig("pl", "Polski", "🇵🇱", false),
    LanguageConfig("ar", "العربية", "🇸🇦", true)
  ]

  /** The `Language` union type. */
  predicate IsLanguageCode(code: string) {
    code in {"fr", "en", "de", "es", "it", "pt", "nl", "pl", "ar"}
  }

  /** `AVAILABLE_LANGUAGES.find(l => l.code === code)`. */
  function FindLanguage(code: string): (r: Option<LanguageConfig>)
    ensures r.Some? <==> IsLanguageCode(code)
    ensures r.Some? ==> r.value.code == code && r.value in AvailableLanguages
  {
    FindFrom(AvailableLanguages, code)
  }

  function FindFrom(configs: seq<LanguageConfig>, code: string): (r: Option<LanguageConfig>)
    ensures r.Some? <==> exists i :: 0 <= i < |configs| && configs[i].code == code
    ensures r.Some? ==> r.value.code == code && r.value in configs
  {
    if configs == [] then None
    else if configs[0].code == code then Some(configs[0])
    else FindFrom(configs[1..], code)
  }

  /** `languageConfig`: the entry of the language, else the French one. */
  function ConfigFor(language: string): (r: LanguageConfig)
    ensures IsLanguageCode(language) ==> r.code == language
    ensures !IsLanguageCode(language) ==> r == AvailableLanguages[0] && r.code == "fr"
  {
    var found := FindLanguage(language);
    if found.Some? then found.value else AvailableLanguages[0]
  }

  /** The `dir` attribute of the wrapper. */
  function Direction(language: string): (r: string)
    ensures r == "rtl" <==> language == "ar"
    ensures r == "rtl" || r == "ltr"
  {
    if ConfigFor(language).rtl then "rtl" else "ltr"
  }

  /** `translations[language]?.[key]`, with `undefined` as "". */
  function Entry(table: Option<map<string, string>>, key: string): string {
    if table.Some? && key in table.value then table.value[key] else ""
  }

  /** `t`, given the language's table (none for a code without one) and the
      French table: the non-empty entry of the language, else the non-empty
      French entry, else the key itself. */
  function Translate(table: Option<map<string, string>>, french: map<string, string>, key: string): (r: string)
    ensures Entry(table, key) != "" ==> r == Entry(table, key)
    ensures Entry(table, key) == "" && Entry(Some(french), key) != "" ==> r == french[key]
    ensures Entry(table, key) == "" && Entry(Some(french), key) == "" ==> r == key
    ensures key != "" ==> r != ""
  {
    var own := Entry(table, key);
    if own != "" then own
    else
      var fallback := Entry(Some(french), key);
      if fallback != "" then fallback else key
  }

  /** The result of `t` is always the key or an entry of the language's or
      the French table; with the French table itself it is the French entry
      whenever that is non-empty. */
  lemma TranslateSources(table: Option<map<string, string>>, french: map<string, string>, key: string)
    ensures var r := Translate(table, french, key);
      || r == key
      || (table.Some? && key in table.value && r == table.value[key])
      || (key in french && r == french[key])
    ensures Entry(Some(french), key) != "" ==> Translate(Some(french), french, key) == french[key]
  {
  }

  /** `translations[language]` for the tables of this file. */
  function TableFor(language: string): (r: Option<map<string, string>>)
    ensures r.Some? <==> IsLanguageCode(language)
  {
    match language
    case "fr" => Some(French)
    case "en" => Some(English)
    case "de" => Some(German)
    case "es" => Some(Spanish)
    case "it" => Some(Italian)
    case "pt" => Some(Portuguese)
    case "nl" => Some(Dutch)
    case "pl" => Some(Polish)
    case "ar" => Some(Arabic)
    case _ => None
  }

  /** `t` in a language, with the tables of this file. */
  function T(language: string, key: string): (r: string)
    ensures key != "" ==> r != ""
    ensures !IsLanguageCode(language) ==> r == Translate(Some(French), French, key)
    ensures || r == key
            || (key in French && r == French[key])
            || (TableFor(language).Some? && key in TableFor(language).value && r == TableFor(language).value[key])
  {
    TranslateSources(TableFor(language), French, key);
    Translate(TableFor(language), French, key)
  }

  const StorageKey := "safety-app-language"

  class LanguageState {
    var language: string
    /** The "safety-app-language" storage slot. */
    var stored: Option<string>

    ghost predicate Valid()
      reads this
    {
      IsLanguageCode(language)
    }

    constructor (initialStorage: Option<string>)
      ensures Valid() && language == "fr" && stored == initialStorage
    {
      language := "fr";
      stored := initialStorage;
    }

    /** The mount effect: a saved value is applied only when it is one of
        the available codes. */
    method LoadSaved()
      requires Valid()
      modifies this`language
      ensures Valid()
      ensures language == (if stored.Some? && stored.value != "" && FindLanguage(stored.value).Some? then stored.value else old(language))
    {
      if stored.Some? && stored.value != "" && FindLanguage(stored.value).Some? {
        language := stored.value;
      }
    }

    /** `setLanguage`: switches and remembers the language. */
    method SetLanguage(lang: string)
      requires IsLanguageCode(lang)
      modifies this
      ensures Valid() && language == lang && stored == Some(lang)
    {
      language := lang;
      stored := Some(lang);
    }

    function LanguageConfigNow(): (r: LanguageConfig)
      requires Valid()
      reads this
      ensures r.code == language && r in AvailableLanguages
    {
      ConfigFor(language)
    }

    /** `t` with the tables of this file. */
    function Translated(key: string): string
      reads this
    {
      T(language, key)
    }
  }

  /** A language chosen and then reloaded is the language in use. */
  method ChoiceSurvivesReload(lang: string) returns (reloaded: LanguageState)
    requires IsLanguageCode(lang)
    ensures reloaded.language == lang
  {
    var before := new LanguageState(None);
    before.SetLanguage(lang);
    reloaded := new LanguageState(before.stored);
    reloaded.LoadSaved();
  }

  /** Anything else in storage leaves the page in French. */
  method UnknownSavedLanguageIgnored(saved: string) returns (state: LanguageState)
    requires !IsLanguageCode(saved)
    ensures state.language == "fr"
  {
    state := new LanguageState(Some(saved));
    state.LoadSaved();
  }

  /** The quiz keys exist only in the French, English, German and Spanish
      tables of this file: in the five other languages the quiz texts come
      out in French. */
  lemma QuizTextsFallBackToFrench(language: string)
    requires language in {"it", "pt", "nl", "pl", "ar"}
    ensures T(language, "qcm.correct") == "Bonne réponse !"
    ensures T(language, "qcm.question") == "Question"
  {
    if language == "it" {
      ItalianFallsBack();
    } else if language == "pt" {
      PortugueseFallsBack();
    } else if language == "nl" {
      DutchFallsBack();
    } else if language == "pl" {
      PolishFallsBack();
    } else {
      ArabicFallsBack();
    }
  }

  lemma ItalianFallsBack()
    ensures T("it", "qcm.correct") == "Bonne réponse !" && T("it", "qcm.question") == "Question"
  {
    ItalianLacksQuizKeys();
    ShortTableFallback("it", Italian);
  }

  lemma PortugueseFallsBack()
    ensures T("pt", "qcm.correct") == "Bonne réponse !" && T("pt", "qcm.question") == "Question"
  {
    PortugueseLacksQuizKeys();
    ShortTableFallback("pt", Portuguese);
  }

  lemma DutchFallsBack()
    ensures T("nl", "qcm.correct") == "Bonne réponse !" && T("nl", "qcm.question") == "Question"
  {
    DutchLacksQuizKeys();
    ShortTableFallback("nl", Dutch);
  }

  lemma PolishFallsBack()
    ensures T("pl", "qcm.correct") == "Bonne réponse !" && T("pl", "qcm.question") == "Question"
  {
    PolishLacksQuizKeys();
    ShortTableFallback("pl", Polish);
  }

  lemma ArabicFallsBack()
    ensures T("ar", "qcm.correct") == "Bonne réponse !" && T("ar", "qcm.question") == "Question"
  {
    ArabicLacksQuizKeys();
    ShortTableFallback("ar", Arabic);
  }

  lemma ShortTableFallback(language: string, table: map<string, string>)
    requires TableFor(language) == Some(table)
    requires "qcm.correct" !in table && "qcm.question" !in table
    ensures T(language, "qcm.correct") == "Bonne réponse !" && T(language, "qcm.question") == "Question"
  {
    FrenchQuizTexts();
    FrenchFallback(table, "qcm.correct");
    FrenchFallback(table, "qcm.question");
  }

  lemma FrenchFallback(table: map<string, string>, key: string)
    requires key !in table && key in French && French[key] != ""
    ensures Translate(Some(table), French, key) == French[key]
  {
  }

  lemma FrenchQuizTexts()
    ensures French["qcm.correct"] == "Bonne réponse !" && French["qcm.question"] == "Question"
  {
  }

  /** The five short tables have navigation, home-page and profile texts
      only. */
  lemma ItalianLacksQuizKeys()
    ensures "qcm.correct" !in Italian && "qcm.question" !in Italian && "qcm.title" !in Italian
  {
  }

  lemma PortugueseLacksQuizKeys()
    ensures "qcm.correct" !in Portuguese && "qcm.question" !in Portuguese && "qcm.title" !in Portuguese
  {
  }

  lemma DutchLacksQuizKeys()
    ensures "qcm.correct" !in Dutch && "qcm.question" !in Dutch && "qcm.title" !in Dutch
  {
  }

  lemma PolishLacksQuizKeys()
    ensures "qcm.correct" !in Polish && "qcm.question" !in Polish && "qcm.title" !in Polish
  {
  }

  lemma ArabicLacksQuizKeys()
    ensures "qcm.correct" !in Arabic && "qcm.question" !in Arabic && "qcm.title" !in Arabic
  {
  }

  /** No table of this file has "qcm.title", so `t` gives the key back in
      every language. */
  lemma QuizTitleIsLiteralKey(language: string)
    ensures T(language, "qcm.title") == "qcm.title"
  {
    NoFullTableHasQuizTitle();
    if language in {"fr", "en", "de", "es"} {
      TitleAbsentLong(language);
    } else {
      TitleAbsentShort(language);
    }
    KeyAbsentEverywhere(TableFor(language), "qcm.title");
  }

  /** A key in neither table comes back as it is. */
  lemma KeyAbsentEverywhere(table: Option<map<string, string>>, key: string)
    requires table.Some? ==> key !in table.value
    requires key !in French
    ensures Translate(table, French, key) == key
  {
  }

  lemma TitleAbsentLong(language: string)
    requires language in {"fr", "en", "de", "es"}
    ensures TableFor(language).Some? && "qcm.title" !in TableFor(language).value
  {
    NoFullTableHasQuizTitle();
    if language == "fr" {
      assert TableFor(language) == Some(French);
    } else if language == "en" {
      assert TableFor(language) == Some(English);
    } else if language == "de" {
      assert TableFor(language) == Some(German);
    } else {
      assert TableFor(language) == Some(Spanish);
    }
  }

  lemma TitleAbsentShort(language: string)
    requires language !in {"fr", "en", "de", "es"}
    ensures TableFor(language).Some? ==> "qcm.title" !in TableFor(language).value
  {
    if language == "it" {
      assert TableFor(language) == Some(Italian);
      ItalianLacksQuizKeys();
    } else if language == "pt" {
      assert TableFor(language) == Some(Portuguese);
      PortugueseLacksQuizKeys();
    } else if language == "nl" {
      assert TableFor(language) == Some(Dutch);
      DutchLacksQuizKeys();
    } else if language == "pl" {
      assert TableFor(language) == Some(Polish);
      PolishLacksQuizKeys();
    } else if language == "ar" {
      assert TableFor(language) == Some(Arabic);
      ArabicLacksQuizKeys();
    } else {
      assert TableFor(language) == None;
    }
  }

  lemma NoFullTableHasQuizTitle()
    ensures "qcm.title" !in French && "qcm.title" !in English
    ensures "qcm.title" !in German && "qcm.title" !in Spanish
  {
  }

  /** A key every table has reads in the page language. */
  lemma ItalianHasOwnTitle()
    ensures T("it", "home.title") == "Centro di Formazione Sicurezza"
    ensures T("en", "qcm.correct") == "Correct answer!"
  {
    assert TableFor("it") == Some(Italian);
    assert Italian["home.title"] == "Centro di Formazione Sicurezza";
    assert TableFor("en") == Some(English);
    assert English["qcm.correct"] == "Correct answer!";
  }

  const French: map<string, string> := map[
    "nav.back" := "Retour",
    "nav.next" := "Suivant",
    "nav.continue" := "Continuer",
    "nav.finish" := "Terminer",
    "nav.start" := "Commencer",
    "home.title" := "Centre de Formation Sécurité",
    "home.subtitle" := "Sensibilisation sécurité interactive",
    "home.description" := "Avant d'accéder au site, vous devez suivre une courte formation aux règles de sécurité essentielles.",
    "home.startButton" := "Commencer la formation",
    "home.duration" := "Durée estimée : 5-10 minutes",
    "profile.title" := "Sélectionnez votre profil",
    "profile.subtitle" := "Choisissez le profil qui correspond le mieux à votre visite",
    "profile.instruction" := "Cliquez sur votre profil pour continuer",
    "profile.driver" := "Chauffeur-livreur",
    "profile.driver.desc" := "Livraisons, chargement/déchargement",
    "profile.technician" := "Sous-traitant technique",
    "profile.technician.desc" := "Maintenance, réparations, installations",
    "profile.cleaning" := "Agent de nettoyage",
    "profile.cleaning.desc" := "Entretien, nettoyage des espaces",
    "profile.administrative" := "Visiteur administratif",
    "profile.administrative.desc" := "Réunions, inspections, audits",
    "profile.selected" := "Sélectionné",
    "profile.step" := "Étape 1 sur 5",
    "qcm.question" := "Question",
    "qcm.of" := "sur",
    "qcm.correct" := "Bonne réponse !",
    "qcm.incorrect" := "Réponse incorrecte",
    "qcm.correctAnswer" := "La bonne réponse était :",
    "qcm.finished" := "QCM Terminé !",
    "qcm.score" := "Score :",
    "qcm.passed" := "Félicitations ! Vous avez réussi la formation.",
    "qcm.failed" := "Score insuffisant. Nous vous recommandons de revoir la formation.",
    "qcm.certificate" := "Générer le certificat"
  ]

  const English: map<string, string> := map[
    "nav.back" := "Back",
    "nav.next" := "Next",
    "nav.continue" := "Continue",
    "nav.finish" := "Finish",
    "nav.start" := "Start",
    "home.title" := "Safety Training Center",
    "home.subtitle" := "Interactive safety awareness",
    "home.description" := "Before accessing the site, you must complete a short training on essential safety rules.",
    "home.startButton" := "Start Training",
    "home.duration" := "Estimated duration: 5-10 minutes",
    "profile.title" := "Select your profile",
    "profile.subtitle" := "Choose the profile that best matches your visit",
    "profile.instruction" := "Click on your profile to continue",
    "profile.driver" := "Driver-Delivery",
    "profile.driver.desc" := "Deliveries, loading/unloading",
    "profile.technician" := "Technical Contractor",
    "profile.technician.desc" := "Maintenance, repairs, installations",
    "profile.cleaning" := "Cleaning Agent",
    "profile.cleaning.desc" := "Maintenance, space cleaning",
    "profile.administrative" := "Administrative Visitor",
    "profile.administrative.desc" := "Meetings, inspections, audits",
    "profile.selected" := "Selected",
    "profile.step" := "Step 1 of 5",
    "qcm.question" := "Question",
    "qcm.of" := "of",
    "qcm.correct" := "Correct answer!",
    "qcm.incorrect" := "Incorrect answer",
    "qcm.correctAnswer" := "The correct answer was:",
    "qcm.finished" := "Quiz Completed!",
    "qcm.score" := "Score:",
    "qcm.passed" := "Congratulations! You have successfully completed the training.",
    "qcm.failed" := "Insufficient score. We recommend reviewing the training.",
    "qcm.certificate" := "Generate certificate"
  ]

  const German: map<string, string> := map[
    "nav.back" := "Zurück",
    "nav.next" := "Weiter",
    "nav.continue" := "Fortfahren",
    "nav.finish" := "Beenden",
    "nav.start" := "Starten",
    "home.title" := "Sicherheitsschulungszentrum",
    "home.subtitle" := "Interaktive Sicherheitsschulung",
    "home.description" := "Bevor Sie das Gelände betreten, müssen Sie eine kurze Schulung zu den wichtigsten Sicherheitsregeln absolvieren.",
    "home.startButton" := "Schulung beginnen",
    "home.duration" := "Geschätzte Dauer: 5-10 Minuten",
    "profile.title" := "Wählen Sie Ihr Profil",
    "profile.subtitle" := "Wählen Sie das Profil, das am besten zu Ihrem Besuch passt",
    "profile.instruction" := "Klicken Sie auf Ihr Profil, um fortzufahren",
    "profile.driver" := "Fahrer-Lieferant",
    "profile.driver.desc" := "Lieferungen, Be-/Entladen",
    "profile.technician" := "Technischer Auftragnehmer",
    "profile.technician.desc" := "Wartung, Reparaturen, Installationen",
    "profile.cleaning" := "Reinigungskraft",
    "profile.cleaning.desc" := "Wartung, Raumreinigung",
    "profile.administrative" := "Verwaltungsbesucher",
    "profile.administrative.desc" := "Besprechungen, Inspektionen, Audits",
    "profile.selected" := "Ausgewählt",
    "profile.step" := "Schritt 1 von 5",
    "qcm.question" := "Frage",
    "qcm.of" := "von",
    "qcm.correct" := "Richtige Antwort!",
    "qcm.incorrect" := "Falsche Antwort",
    "qcm.correctAnswer" := "Die richtige Antwort war:",
    "qcm.finished" := "Quiz abgeschlossen!",
    "qcm.score" := "Punkte:",
    "qcm.passed" := "Herzlichen Glückwunsch! Sie haben die Schulung erfolgreich abgeschlossen.",
    "qcm.failed" := "Unzureichende Punktzahl. Wir empfehlen, die Schulung zu wiederholen.",
    "qcm.certificate" := "Zertifikat erstellen"
  ]

  const Spanish: map<string, string> := map[
    "nav.back" := "Atrás",
    "nav.next" := "Siguiente",
    "nav.continue" := "Continuar",
    "nav.finish" := "Finalizar",
    "nav.start" := "Empezar",
    "home.title" := "Centro de Formación en Seguridad",
    "home.subtitle" := "Sensibilización de seguridad interactiva",
    "home.description" := "Antes de acceder al sitio, debe completar una breve formación sobre las reglas de seguridad esenciales.",
    "home.startButton" := "Comenzar Formación",
    "home.duration" := "Duración estimada: 5-10 minutos",
    "profile.title" := "Seleccione su perfil",
    "profile.subtitle" := "Elija el perfil que mejor coincida con su visita",
    "profile.instruction" := "Haga clic en su perfil para continuar",
    "profile.driver" := "Conductor-Repartidor",
    "profile.driver.desc" := "Entregas, carga/descarga",
    "profile.technician" := "Contratista Técnico",
    "profile.technician.desc" := "Mantenimiento, reparaciones, instalaciones",
    "profile.cleaning" := "Agente de Limpieza",
    "profile.cleaning.desc" := "Mantenimiento, limpieza de espacios",
    "profile.administrative" := "Visitante Administrativo",
    "profile.administrative.desc" := "Reuniones, inspecciones, auditorías",
    "profile.selected" := "Seleccionado",
    "profile.step" := "Paso 1 de 5",
    "qcm.question" := "Pregunta",
    "qcm.of" := "de",
    "qcm.correct" := "¡Respuesta correcta!",
    "qcm.incorrect" := "Respuesta incorrecta",
    "qcm.correctAnswer" := "La respuesta correcta era:",
    "qcm.finished" := "¡Quiz Completado!",
    "qcm.score" := "Puntuación:",
    "qcm.passed" := "¡Felicidades! Ha completado exitosamente la formación.",
    "qcm.failed" := "Puntuación insuficiente. Recomendamos revisar la formación.",
    "qcm.certificate" := "Generar certificado"
  ]

  const Italian: map<string, string> := map[
    "nav.back" := "Indietro",
    "nav.start" := "Inizia",
    "home.title" := "Centro di Formazione Sicurezza",
    "home.startButton" := "Inizia Formazione",
    "profile.driver" := "Autista-Consegnatario",
    "profile.technician" := "Appaltatore Tecnico",
    "profile.cleaning" := "Addetto alle Pulizie",
    "profile.administrative" := "Visitante Amministrativo"
  ]

  const Portuguese: map<string, string> := map[
    "nav.back" := "Voltar",
    "nav.start" := "Começar",
    "home.title" := "Centro de Formação em Segurança",
    "home.startButton" := "Começar Treinamento",
    "profile.driver" := "Motorista-Entregador",
    "profile.technician" := "Contratado Técnico",
    "profile.cleaning" := "Agente de Limpeza",
    "profile.administrative" := "Visitante Administrativo"
  ]

  const Dutch: map<string, string> := map[
    "nav.back" := "Terug",
    "nav.start" := "Start",
    "home.title" := "Veiligheidstrainingscentrum",
    "home.startButton" := "Training Starten",
    "profile.driver" := "Chauffeur-Bezorger",
    "profile.technician" := "Technische Aannemer",
    "profile.cleaning" := "Schoonmaakmedewerker",
    "profile.administrative" := "Administratieve Bezoeker"
  ]

  const Polish: map<string, string> := map[
    "nav.back" := "Wstecz",
    "nav.start" := "Start",
    "home.title" := "Centrum Szkolenia BHP",
    "home.startButton" := "Rozpocznij Szkolenie",
    "profile.driver" := "Kierowca-Dostawca",
    "profile.technician" := "Wykonawca Techniczny",
    "profile.cleaning" := "Pracownik Sprzątający",
    "profile.administrative" := "Gość Administracyjny"
  ]

  const Arabic: map<string, string> := map[
    "nav.back" := "رجوع",
    "nav.start" := "بدء",
    "home.title" := "مركز التدريب على السلامة",
    "home.startButton" := "بدء التدريب",
    "profile.driver" := "سائق-موصل",
    "profile.technician" := "متعاقد تقني",
    "profile.cleaning" := "عامل النظافة",
    "profile.administrative" := "زائر إداري"
  ]
}
