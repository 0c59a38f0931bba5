/** The quiz question bank of client/data/qcm-questions.ts: five questions
    for everybody, two or three per profile, each with its text and four
    options in several languages; the pool for a profile, shuffled and capped
    at 12; and the language-fallback normaliser. */
module QcmQuestions {
  import opened Common

  /** A per-language object `{ fr: ..., en: ..., ... }` as its entries in
      insertion order (which `Object.values(...)[0]` observes). */
  type LangRecord<T> = seq<(string, T)>

  datatype Question = Question(
    id: int,
    question: LangRecord<string>,
    options: LangRecord<seq<string>>,
    correct: int,
    profiles: Option<seq<string>>,
    explanation: Option<LangRecord<string>>)

  /** The nine language codes, in the order the normaliser visits them. */
  const Languages: seq<string> := ["fr", "en", "de", "es", "it", "pt", "nl", "pl", "ar"]

  /** Largest number of questions handed to the quiz. */
  const MaxQuizLength: nat := 12

  /** `record[key]`: the value stored under `key`, if any. */
  function Lookup<T>(r: LangRecord<T>, key: string): Option<T> {
    if r == [] then None else if r[0].0 == key then Some(r[0].1) else Lookup(r[1..], key)
  }

  /** `record[key] = value`: replaces the value in place, or appends the key. */
  function Assign<T>(r: LangRecord<T>, key: string, v: T): (out: LangRecord<T>)
    ensures Lookup(out, key) == Some(v)
    ensures forall k :: k != key ==> Lookup(out, k) == Lookup(r, k)
    ensures |out| > 0 && (|r| > 0 ==> out[0] == if r[0].0 == key then (key, v) else r[0])
  {
    if r == [] then [(key, v)]
    else if r[0].0 == key then [(key, v)] + r[1..]
    else [r[0]] + Assign(r[1..], key, v)
  }

  /** JavaScript truthiness of a string; arrays are always truthy. */
  predicate TextTruthy(s: string) { s != "" }
  predicate ListTruthy(s: seq<string>) { true }

  /** `record.fr || Object.values(record)[0] || empty`. */
  function FallbackValue<T>(r: LangRecord<T>, truthy: T -> bool, empty: T): T {
    var fr := Lookup(r, "fr");
    if fr.Some? && truthy(fr.value) then fr.value
    else if |r| > 0 && truthy(r[0].1) then r[0].1
    else empty
  }

  /** `record[lang] || record.fr || Object.values(record)[0] || empty`: the
      language's own value when truthy, otherwise the French one, otherwise
      the first one, otherwise `empty`. */
  function Resolve<T>(r: LangRecord<T>, lang: string, truthy: T -> bool, empty: T): T {
    var own := Lookup(r, lang);
    if own.Some? && truthy(own.value) then own.value else FallbackValue(r, truthy, empty)
  }

  lemma ResolveFrenchIsFallback<T>(r: LangRecord<T>, truthy: T -> bool, empty: T)
    ensures Resolve(r, "fr", truthy, empty) == FallbackValue(r, truthy, empty)
  {
  }

  /** One of the three `allLanguages.forEach` loops of `ensureAllLanguages`:
      every missing or falsy language entry of a copy of `record` is assigned
      the French value (or the first value, or `empty`) read from the copy as
      it stands at that moment. Afterwards each language holds what `Resolve`
      gives on the original record, and no other key changed. */
  method FillLanguages<T>(record: LangRecord<T>, truthy: T -> bool, empty: T) returns (out: LangRecord<T>)
    ensures forall lang :: lang in Languages ==> Lookup(out, lang) == Some(Resolve(record, lang, truthy, empty))
    ensures forall k :: k !in Languages ==> Lookup(out, k) == Lookup(record, k)
  {
    var fallback := FallbackValue(record, truthy, empty);
    out := record;
    for i := 0 to |Languages|
      invariant i == 0 ==> out == record
      invariant forall j :: 0 <= j < i ==> Lookup(out, Languages[j]) == Some(Resolve(record, Languages[j], truthy, empty))
      invariant forall k :: k !in Languages[..i] ==> Lookup(out, k) == Lookup(record, k)
      invariant i > 0 ==> |out| > 0 && (truthy(fallback) || (!truthy(out[0].1) && fallback == empty))
    {
      var lang := Languages[i];
      assert lang !in Languages[..i];
      var current := Lookup(out, lang);
      if !(current.Some? && truthy(current.value)) {
        var fr := Lookup(out, "fr");
        var value := if fr.Some? && truthy(fr.value) then fr.value
                     else if |out| > 0 && truthy(out[0].1) then out[0].1
                     else empty;
        if i > 0 {
          assert Lookup(out, Languages[0]) == Some(fallback);
        }
        assert value == fallback;
        out := Assign(out, lang, value);
      }
      assert Languages[..i + 1] == Languages[..i] + [lang];
    }
  }

  /** `ensureAllLanguages`: the text, the options and (when present) the
      explanation get an entry for each of the nine languages; `id`,
      `correct` and `profiles` are carried over. */
  method EnsureAllLanguages(q: Question) returns (r: Question)
    ensures r.id == q.id && r.correct == q.correct && r.profiles == q.profiles
    ensures forall lang :: lang in Languages ==>
      && Lookup(r.question, lang) == Some(Resolve(q.question, lang, TextTruthy, ""))
      && Lookup(r.options, lang) == Some(Resolve(q.options, lang, ListTruthy, []))
    ensures r.explanation.Some? <==> q.explanation.Some?
    ensures q.explanation.Some? ==> forall lang :: lang in Languages ==>
      Lookup(r.explanation.value, lang) == Some(Resolve(q.explanation.value, lang, TextTruthy, ""))
    ensures forall k :: k !in Languages ==>
      Lookup(r.question, k) == Lookup(q.question, k) && Lookup(r.options, k) == Lookup(q.options, k)
  {
    var text := FillLanguages(q.question, TextTruthy, "");
    var options := FillLanguages(q.options, ListTruthy, []);
    var explanation := q.explanation;
    if explanation.Some? {
      var filled := FillLanguages(explanation.value, TextTruthy, "");
      explanation := Some(filled);
    }
    r := q.(question := text, options := options, explanation := explanation);
  }

  /** A French text, at least one option list, four options in every
      language, and `correct` indexes them. */
  predicate WellFormed(q: Question) {
    && Lookup(q.question, "fr").Some? && Lookup(q.question, "fr").value != ""
    && |q.options| > 0
    && forall k :: 0 <= k < |q.options| ==> |q.options[k].1| == 4 && 0 <= q.correct < 4
  }

  const Question1 := Question(
    1,
    [("fr", "Quels équipements sont obligatoires en zone de chargement ?"), ("en", "What equipment is mandatory in the loading area?"), ("de", "Welche Ausrüstung ist im Ladebereich obligatorisch?"), ("es", "¿Qué equipo es obligatorio en el área de carga?"), ("it", "Quali attrezzature sono obbligatorie nell'area di carico?"), ("pt", "Que equipamento é obrigatório na área de carregamento?"), ("nl", "Welke uitrusting is verplicht in het laadgebied?"), ("pl", "Jaki sprzęt jest obowiązkowy w strefie załadunku?"), ("ar", "ما المعدات الإجبارية في منطقة التحميل؟")],
    [("fr", ["Gilet haute visibilité, chaussures de sécurité", "Casque uniquement", "Gants de travail seulement", "Aucun équipement spécifique"]), ("en", ["High-visibility vest, safety shoes", "Helmet only", "Work gloves only", "No specific equipment"]), ("de", ["Warnweste, Sicherheitsschuhe", "Nur Helm", "Nur Arbeitshandschuhe", "Keine spezielle Ausrüstung"]), ("es", ["Chaleco de alta visibilidad, zapatos de seguridad", "Solo casco", "Solo guantes de trabajo", "Ningún equipo específico"]), ("it", ["Gilet ad alta visibilità, scarpe di sicurezza", "Solo casco", "Solo guanti da lavoro", "Nessun equipaggiamento specifico"]), ("pt", ["Colete de alta visibilidade, sapatos de segurança", "Apenas capacete", "Apenas luvas de trabalho", "Nenhum equipamento específico"]), ("nl", ["Hoge zichtbaarheidsvest, veiligheidsschoenen", "Alleen helm", "Alleen werkhandschoenen", "Geen specifieke uitrusting"]), ("pl", ["Kamizelka odblaskowa, buty robocze", "Tylko hełm", "Tylko rękawice robocze", "Brak specjalnego sprzętu"]), ("ar", ["سترة عالية الوضوح، أحذية أمان", "خوذة فقط", "قفازات عمل فقط", "لا توجد معدات محددة"])],
    0,
    None,
    Some([("fr", "Le gilet haute visibilité et les chaussures de sécurité sont obligatoires pour être visible et protégé."), ("en", "High-visibility vest and safety shoes are mandatory to be visible and protected."), ("de", "Warnweste und Sicherheitsschuhe sind obligatorisch für Sichtbarkeit und Schutz."), ("es", "El chaleco de alta visibilidad y los zapatos de seguridad son obligatorios para ser visible y protegido.")]))

  const Question2 := Question(
    2,
    [("fr", "Que devez-vous faire en cas d'urgence ?"), ("en", "What should you do in case of emergency?"), ("de", "Was sollten Sie im Notfall tun?"), ("es", "¿Qué debe hacer en caso de emergencia?"), ("it", "Cosa dovresti fare in caso di emergenza?"), ("pt", "O que você deve fazer em caso de emergência?"), ("nl", "Wat moet je doen in geval van nood?"), ("pl", "Co powinieneś zrobić w przypadku nagłej sytuacji?"), ("ar", "ماذا يجب أن تفعل في حالة الطوارئ؟")],
    [("fr", ["Continuer votre travail", "Suivre les consignes d'évacuation", "Attendre les instructions", "Quitter immédiatement sans prévenir"]), ("en", ["Continue your work", "Follow evacuation procedures", "Wait for instructions", "Leave immediately without notice"]), ("de", ["Ihre Arbeit fortsetzen", "Evakuierungsverfahren befolgen", "Auf Anweisungen warten", "Sofort ohne Benachrichtigung verlassen"]), ("es", ["Continuar su trabajo", "Seguir los procedimientos de evacuación", "Esperar instrucciones", "Salir inmediatamente sin avisar"]), ("it", ["Continuare il tuo lavoro", "Seguire le procedure di evacuazione", "Aspettare istruzioni", "Uscire immediatamente senza avvisare"]), ("pt", ["Continuar seu trabalho", "Seguir os procedimentos de evacuação", "Aguardar instruções", "Sair imediatamente sem avisar"]), ("nl", ["Je werk voortzetten", "Evacuatieprocedures volgen", "Wachten op instructies", "Onmiddellijk vertrekken zonder waarschuwing"]), ("pl", ["Kontynuować pracę", "Postępować zgodnie z procedurami ewakuacji", "Czekać na instrukcje", "Natychmiast wyjść bez powiadamiania"]), ("ar", ["م��اصلة عملك", "اتباع إجراءات الإخلاء", "انتظار التعليمات", "الخروج فوراً دون إشعار"])],
    1,
    None,
    Some([("fr", "En cas d'urgence, il faut toujours suivre les consignes d'évacuation établies."), ("en", "In case of emergency, always follow established evacuation procedures."), ("de", "Im Notfall immer die festgelegten Evakuierungsverfahren befolgen."), ("es", "En caso de emergencia, siempre seguir los procedimientos de evacuación establecidos.")]))

  const Question3 := Question(
    3,
    [("fr", "Dans quelles zones la vitesse est-elle limitée ?"), ("en", "In which areas is speed limited?"), ("de", "In welchen Bereichen ist die Geschwindigkeit begrenzt?"), ("es", "¿En qué áreas está limitada la velocidad?")],
    [("fr", ["Uniquement dans les parkings", "Partout sur le site", "Seulement près des bâtiments", "Aucune limitation"]), ("en", ["Only in parking areas", "Everywhere on site", "Only near buildings", "No limitations"]), ("de", ["Nur in Parkbereichen", "Überall auf dem Gelände", "Nur in der Nähe von Gebäuden", "Keine Beschränkungen"]), ("es", ["Solo en áreas de estacionamiento", "En todo el sitio", "Solo cerca de edificios", "Sin limitaciones"])],
    1,
    None,
    None)

  const Question4 := Question(
    4,
    [("fr", "Quelle est la première chose à faire en arrivant sur site ?"), ("en", "What is the first thing to do when arriving on site?"), ("de", "Was ist das erste, was Sie bei der Ankunft auf dem Gelände tun sollten?"), ("es", "¿Cuál es lo primero que debe hacer al llegar al sitio?")],
    [("fr", ["Commencer immédiatement le travail", "Se présenter à l'accueil et suivre la formation sécurité", "Chercher son responsable", "Installer son matériel"]), ("en", ["Start work immediately", "Report to reception and complete safety training", "Look for your supervisor", "Set up your equipment"]), ("de", ["Sofort mit der Arbeit beginnen", "Sich an der Rezeption melden und Sicherheitsschulung absolvieren", "Nach dem Vorgesetzten suchen", "Ausrüstung aufbauen"]), ("es", ["Comenzar el trabajo inmediatamente", "Reportarse en recepción y completar la formación de seguridad", "Buscar a su supervisor", "Instalar su equipo"])],
    1,
    None,
    None)

  const Question5 := Question(
    5,
    [("fr", "Que signifie un panneau triangulaire rouge ?"), ("en", "What does a red triangular sign mean?"), ("de", "Was bedeutet ein rotes Dreiecksschild?"), ("es", "¿Qué significa una señal triangular roja?")],
    [("fr", ["Interdiction", "Danger", "Obligation", "Information"]), ("en", ["Prohibition", "Danger", "Obligation", "Information"]), ("de", ["Verbot", "Gefahr", "Pflicht", "Information"]), ("es", ["Prohibición", "Peligro", "Obligación", "Información"])],
    1,
    None,
    None)

  /** Questions shown to every profile. */
  const BaseQuestions: seq<Question> := [Question1, Question2, Question3, Question4, Question5]

  lemma BaseQuestionsWellFormed()
    ensures forall q :: q in BaseQuestions ==> WellFormed(q)
  {
    assert WellFormed(Question1);
    assert WellFormed(Question2);
    assert WellFormed(Question3);
    assert WellFormed(Question4);
    assert WellFormed(Question5);
  }

  const Question101 := Question(
    101,
    [("fr", "Avant de commencer le déchargement, que devez-vous vérifier ?"), ("en", "Before starting unloading, what should you check?"), ("de", "Vor dem Entladen, was sollten Sie überprüfen?"), ("es", "Antes de comenzar la descarga, ¿qué debe verificar?")],
    [("fr", ["Que le véhicule soit bien positionné et freiné", "Seulement l'heure de livraison", "La météo", "Le nombre de colis"]), ("en", ["That the vehicle is properly positioned and braked", "Only the delivery time", "The weather", "The number of packages"]), ("de", ["Dass das Fahrzeug richtig positioniert und gebremst ist", "Nur die Lieferzeit", "Das Wetter", "Die Anzahl der Pakete"]), ("es", ["Que el vehículo esté bien posicionado y frenado", "Solo la hora de entrega", "El clima", "El número de paquetes"])],
    0,
    Some(["driver"]),
    None)

  const Question102 := Question(
    102,
    [("fr", "Quelle est la vitesse maximale autorisée sur le site ?"), ("en", "What is the maximum speed allowed on site?"), ("de", "Welche Höchstgeschwindigkeit ist auf dem Gelände erlaubt?"), ("es", "¿Cuál es la velocidad máxima permitida en el sitio?")],
    [("fr", ["50 km/h", "30 km/h", "20 km/h", "10 km/h"]), ("en", ["50 km/h", "30 km/h", "20 km/h", "10 km/h"]), ("de", ["50 km/h", "30 km/h", "20 km/h", "10 km/h"]), ("es", ["50 km/h", "30 km/h", "20 km/h", "10 km/h"])],
    2,
    Some(["driver"]),
    None)

  const Question103 := Question(
    103,
    [("fr", "En cas de produits dangereux, que devez-vous avoir ?"), ("en", "In case of dangerous goods, what must you have?"), ("de", "Bei Gefahrgut, was müssen Sie haben?"), ("es", "En caso de mercancías peligrosas, ¿qué debe tener?")],
    [("fr", ["Rien de spécial", "Les documents ADR et équipements de sécurité", "Seulement le bon de livraison", "Un téléphone portable"]), ("en", ["Nothing special", "ADR documents and safety equipment", "Only the delivery note", "A mobile phone"]), ("de", ["Nichts Besonderes", "ADR-Dokumente und Sicherheitsausrüstung", "Nur den Lieferschein", "Ein Mobiltelefon"]), ("es", ["Nada especial", "Documentos ADR y equipo de seguridad", "Solo la nota de entrega", "Un teléfono móvil"])],
    1,
    Some(["driver"]),
    None)

  /** Questions tagged for the 'driver' profile. */
  const DriverQuestions: seq<Question> := [Question101, Question102, Question103]

  lemma DriverQuestionsWellFormed()
    ensures forall q :: q in DriverQuestions ==> WellFormed(q)
  {
    assert WellFormed(Question101);
    assert WellFormed(Question102);
    assert WellFormed(Question103);
  }

  const Question201 := Question(
    201,
    [("fr", "Avant toute intervention électrique, que devez-vous faire ?"), ("en", "Before any electrical intervention, what must you do?"), ("de", "Vor jeder elektrischen Intervention, was müssen Sie tun?"), ("es", "Antes de cualquier intervención eléctrica, ¿qué debe hacer?")],
    [("fr", ["Vérifier que l'installation soit hors tension", "Mettre ses gants", "Prévenir son chef", "Prendre ses outils"]), ("en", ["Check that the installation is de-energized", "Put on gloves", "Inform your supervisor", "Get your tools"]), ("de", ["Überprüfen, dass die Anlage spannungsfrei ist", "Handschuhe anziehen", "Den Vorgesetzten informieren", "Werkzeuge holen"]), ("es", ["Verificar que la instalación esté desenergizada", "Ponerse guantes", "Informar a su supervisor", "Tomar sus herramientas"])],
    0,
    Some(["technician"]),
    None)

  const Question202 := Question(
    202,
    [("fr", "Pour un travail en hauteur, à partir de quelle hauteur faut-il un harnais ?"), ("en", "For work at height, from what height is a harness required?"), ("de", "Für Arbeiten in der Höhe, ab welcher Höhe ist ein Gurt erforderlich?"), ("es", "Para trabajo en altura, ¿a partir de qué altura se requiere arnés?")],
    [("fr", ["1 mètre", "2 mètres", "3 mètres", "5 mètres"]), ("en", ["1 meter", "2 meters", "3 meters", "5 meters"]), ("de", ["1 Meter", "2 Meter", "3 Meter", "5 Meter"]), ("es", ["1 metro", "2 metros", "3 metros", "5 metros"])],
    1,
    Some(["technician"]),
    None)

  const Question203 := Question(
    203,
    [("fr", "Que devez-vous faire avant d'utiliser un outil électroportatif ?"), ("en", "What should you do before using a power tool?"), ("de", "Was sollten Sie tun, bevor Sie ein Elektrowerkzeug verwenden?"), ("es", "¿Qué debe hacer antes de usar una herramienta eléctrica?")],
    [("fr", ["Vérifier son état et ses protections", "Le brancher immédiatement", "Chercher la notice", "Demander l'autorisation"]), ("en", ["Check its condition and protections", "Plug it in immediately", "Look for the manual", "Ask for permission"]), ("de", ["Zustand und Schutzvorrichtungen überprüfen", "Sofort einstecken", "Nach der Anleitung suchen", "Um Erlaubnis fragen"]), ("es", ["Verificar su estado y protecciones", "Enchufarlo inmediatamente", "Buscar el manual", "Pedir permiso"])],
    0,
    Some(["technician"]),
    None)

  /** Questions tagged for the 'technician' profile. */
  const TechnicianQuestions: seq<Question> := [Question201, Question202, Question203]

  lemma TechnicianQuestionsWellFormed()
    ensures forall q :: q in TechnicianQuestions ==> WellFormed(q)
  {
    assert WellFormed(Question201);
    assert WellFormed(Question202);
    assert WellFormed(Question203);
  }

  const Question301 := Question(
    301,
    [("fr", "Lors du mélange de produits chimiques, que ne devez-vous jamais faire ?"), ("en", "When mixing chemicals, what should you never do?"), ("de", "Beim Mischen von Chemikalien, was sollten Sie niemals tun?"), ("es", "Al mezclar químicos, ¿qué nunca debe hacer?")],
    [("fr", ["Mélanger différents produits sans vérification", "Porter des gants", "Lire les étiquettes", "Aérer la zone"]), ("en", ["Mix different products without checking", "Wear gloves", "Read the labels", "Ventilate the area"]), ("de", ["Verschiedene Produkte ohne Überprüfung mischen", "Handschuhe tragen", "Etiketten lesen", "Den Bereich lüften"]), ("es", ["Mezclar diferentes productos sin verificar", "Usar guantes", "Leer las etiquetas", "Ventilar el área"])],
    0,
    Some(["cleaning"]),
    None)

  const Question302 := Question(
    302,
    [("fr", "Comment devez-vous signaler une zone humide après nettoyage ?"), ("en", "How should you signal a wet area after cleaning?"), ("de", "Wie sollten Sie einen nassen Bereich nach der Reinigung kennzeichnen?"), ("es", "¿Cómo debe señalar un área húmeda después de la limpieza?")],
    [("fr", ["Ne rien faire", "Placer des panneaux 'Sol glissant'", "Fermer la zone", "Attendre que ça sèche"]), ("en", ["Do nothing", "Place 'Slippery floor' signs", "Close the area", "Wait for it to dry"]), ("de", ["Nichts tun", "'Rutschiger Boden' Schilder aufstellen", "Den Bereich schließen", "Warten, bis es trocken ist"]), ("es", ["No hacer nada", "Colocar señales de 'Piso resbaladizo'", "Cerrar el área", "Esperar a que se seque"])],
    1,
    Some(["cleaning"]),
    None)

  /** Questions tagged for the 'cleaning' profile. */
  const CleaningQuestions: seq<Question> := [Question301, Question302]

  lemma CleaningQuestionsWellFormed()
    ensures forall q :: q in CleaningQuestions ==> WellFormed(q)
  {
    assert WellFormed(Question301);
    assert WellFormed(Question302);
  }

  const Question401 := Question(
    401,
    [("fr", "En cas d'inspection, qui devez-vous accompagner ?"), ("en", "During an inspection, who should you accompany?"), ("de", "Bei einer Inspektion, wen sollten Sie begleiten?"), ("es", "Durante una inspección, ¿a quién debe acompañar?")],
    [("fr", ["Personne", "Un responsable sécurité du site", "N'importe qui", "Seulement un ouvrier"]), ("en", ["No one", "A site safety manager", "Anyone", "Only a worker"]), ("de", ["Niemand", "Einen Sicherheitsverantwortlichen des Standorts", "Jeder", "Nur einen Arbeiter"]), ("es", ["Nadie", "Un gerente de seguridad del sitio", "Cualquiera", "Solo un trabajador"])],
    1,
    Some(["administrative"]),
    None)

  const Question402 := Question(
    402,
    [("fr", "Pour accéder aux bureaux, que devez-vous porter ?"), ("en", "To access the offices, what must you wear?"), ("de", "Um Zugang zu den Büros zu erhalten, was müssen Sie tragen?"), ("es", "Para acceder a las oficinas, ¿qué debe usar?")],
    [("fr", ["Vêtements de travail complets", "Badge visiteur et chaussures fermées minimum", "Casque obligatoire", "Combinaison intégrale"]), ("en", ["Complete work clothes", "Visitor badge and closed shoes minimum", "Mandatory helmet", "Full suit"]), ("de", ["Vollständige Arbeitskleidung", "Besucherausweis und geschlossene Schuhe mindestens", "Pflichthelm", "Vollanzug"]), ("es", ["Ropa de trabajo completa", "Tarjeta de visitante y zapatos cerrados mínimo", "Casco obligatorio", "Traje completo"])],
    1,
    Some(["administrative"]),
    None)

  /** Questions tagged for the 'administrative' profile. */
  const AdministrativeQuestions: seq<Question> := [Question401, Question402]

  lemma AdministrativeQuestionsWellFormed()
    ensures forall q :: q in AdministrativeQuestions ==> WellFormed(q)
  {
    assert WellFormed(Question401);
    assert WellFormed(Question402);
  }

  /** The profile-specific list `getQuestionsForProfile` appends; none for an
      unknown profile. */
  function ProfileQuestions(profile: string): (r: seq<Question>)
    ensures profile !in {"driver", "technician", "cleaning", "administrative"} ==> r == []
    ensures forall i :: 0 <= i < |r| ==> r[i].profiles == Some([profile]) && r[i].id > 100
  {
    match profile
    case "driver" => DriverQuestions
    case "technician" => TechnicianQuestions
    case "cleaning" => CleaningQuestions
    case "administrative" => AdministrativeQuestions
    case _ => []
  }

  /** The pool before shuffling: the base questions, then the profile's own. */
  function Pool(profile: string): seq<Question> {
    BaseQuestions + ProfileQuestions(profile)
  }

  /** 5 base questions plus the profile's own. */
  function PoolSize(profile: string): nat {
    match profile
    case "driver" => 8
    case "technician" => 8
    case "cleaning" => 7
    case "administrative" => 7
    case _ => 5
  }

  /** Every question of a profile's pool is untagged or tagged with exactly
      that profile, and the pool has 8, 7 or 5 questions. */
  lemma PoolFacts(profile: string)
    ensures forall q :: q in Pool(profile) ==> q.profiles.None? || q.profiles == Some([profile])
    ensures |Pool(profile)| == PoolSize(profile)
  {
    var pool := Pool(profile);
    forall q | q in pool ensures q.profiles.None? || q.profiles == Some([profile]) {
      var i :| 0 <= i < |pool| && pool[i] == q;
      if i >= 5 {
        assert q == ProfileQuestions(profile)[i - 5];
      }
    }
  }

  /** `getQuestionsForProfile`: a copy of the pool, reordered by the random
      comparator (some permutation of it), then its first 12 entries. The
      exported lists are values here, so the sort can never reorder them. */
  method GetQuestionsForProfile(profile: string) returns (r: seq<Question>)
    ensures |r| <= MaxQuizLength
    ensures multiset(r) == multiset(Pool(profile))
    ensures |r| == PoolSize(profile)
    ensures forall q :: q in r ==> q.profiles.None? || q.profiles == Some([profile])
  {
    var questions := BaseQuestions;
    questions := questions + ProfileQuestions(profile);
    PoolFacts(profile);
    var shuffled := Shuffle(questions);
    r := Take(shuffled, MaxQuizLength);
    assert r == shuffled;
    forall q | q in r ensures q.profiles.None? || q.profiles == Some([profile]) {
      assert q in multiset(questions);
    }
  }

  /** `questions.sort(() => 0.5 - Math.random())`: the comparator is random,
      so all that is known of the outcome is that it is a permutation. */
  method Shuffle(questions: seq<Question>) returns (shuffled: seq<Question>)
    ensures multiset(shuffled) == multiset(questions) && |shuffled| == |questions|
  {
    assert multiset(questions) == multiset(questions);
    shuffled :| multiset(shuffled) == multiset(questions);
    assert |shuffled| == |multiset(shuffled)|;
  }

  /** `getAllQuestions`: the five lists one after the other. */
  function GetAllQuestions(): (r: seq<Question>)
    ensures |r| == 15
    ensures forall profile, q :: q in Pool(profile) ==> q in r
  {
    BaseQuestions + DriverQuestions + TechnicianQuestions + CleaningQuestions + AdministrativeQuestions
  }

  function Ids(qs: seq<Question>): seq<int> {
    seq(|qs|, i requires 0 <= i < |qs| => qs[i].id)
  }

  /** The bank holds 15 questions with distinct ids. */
  lemma AllQuestionsHaveDistinctIds()
    ensures Ids(GetAllQuestions()) == [1, 2, 3, 4, 5, 101, 102, 103, 201, 202, 203, 301, 302, 401, 402]
    ensures |GetAllQuestions()| == 15 && NoDup(Ids(GetAllQuestions()))
  {
  }

  /** In every question of the bank each option list has four entries, so
      `correct` indexes every one of them. */
  lemma CorrectIndexesEveryOptionList()
    ensures forall q :: q in GetAllQuestions() ==> WellFormed(q)
  {
    BaseQuestionsWellFormed();
    DriverQuestionsWellFormed();
    TechnicianQuestionsWellFormed();
    CleaningQuestionsWellFormed();
    AdministrativeQuestionsWellFormed();
  }

  /** Through the fallback, every language gets one of the question's own
      four-option lists, so the answer index stays valid in all of them. */
  lemma NormalisedOptionsKeepCorrect(q: Question, lang: string)
    requires q in GetAllQuestions()
    ensures |Resolve(q.options, lang, ListTruthy, [])| == 4
    ensures 0 <= q.correct < |Resolve(q.options, lang, ListTruthy, [])|
  {
    CorrectIndexesEveryOptionList();
    LookupFindsEntry(q.options, lang);
    LookupFindsEntry(q.options, "fr");
  }

  lemma LookupFindsEntry<T>(r: LangRecord<T>, key: string)
    ensures Lookup(r, key).Some? ==> exists k :: 0 <= k < |r| && r[k].1 == Lookup(r, key).value
  {
    if r != [] && r[0].0 != key {
      LookupFindsEntry(r[1..], key);
      if Lookup(r, key).Some? {
        var k :| 0 <= k < |r[1..]| && r[1..][k].1 == Lookup(r, key).value;
        assert r[k + 1].1 == Lookup(r, key).value;
      }
    }
  }
}
