/** What the service reads out of a transaction of the external provider. */
module CafMappers {
  import opened Wrappers
  import Decision

  /** The fields that are looked at; any of them may be missing. */
  datatype Data = Data(probability: Option<real>, ageRangeLow: Option<real>, birthDate: Option<string>,
                       confidence: Option<real>, identical: bool)

  datatype Service = Service(name: string, status: string, data: Data)

  datatype Transaction = Transaction(services: seq<Service>)

  datatype MissingService = MissingService(name: string)

  /** services.find by name. */
  function Find(services: seq<Service>, name: string): Option<Service> {
    if services == [] then None
    else if services[0].name == name then Some(services[0])
    else Find(services[1..], name)
  }

  predicate IsComplete(tx: Transaction) {
    tx.services != [] && forall i | 0 <= i < |tx.services| :: tx.services[i].status == "COMPLETED"
  }

  function OrZero(x: Option<real>): real {
    if x.Some? then x.value else 0.0
  }

  function ExtractAgeLiveness(tx: Transaction, scale: real): Result<Decision.AgeResult, MissingService>
    requires scale != 0.0
  {
    match Find(tx.services, "face_liveness")
    case None => Err(MissingService("face_liveness"))
    case Some(liveness) =>
      match Find(tx.services, "face_details")
      case None => Err(MissingService("face_details"))
      case Some(face) =>
        // the lower end of the age range: the harder one to clear the cutoff with
        Ok(Decision.AgeResult(OrZero(face.data.ageRangeLow), OrZero(liveness.data.probability) / scale))
  }

  datatype Ocr = Ocr(birthDate: Option<string>, faceMatchScore: real, identical: bool)

  function ExtractDocument(tx: Transaction, scale: real): Result<Ocr, MissingService>
    requires scale != 0.0
  {
    match Find(tx.services, "ocr")
    case None => Err(MissingService("ocr"))
    case Some(ocr) =>
      match Find(tx.services, "facematch")
      case None => Err(MissingService("facematch"))
      case Some(m) => Ok(Ocr(ocr.data.birthDate, OrZero(m.data.confidence) / scale, m.data.identical))
  }

  lemma {:induction false} FindFirst(services: seq<Service>, name: string)
    ensures Find(services, name).None? <==> forall i | 0 <= i < |services| :: services[i].name != name
    ensures Find(services, name).Some? ==>
              exists i :: 0 <= i < |services| && Find(services, name).value == services[i] && services[i].name == name
                          && forall j | 0 <= j < i :: services[j].name != name
    decreases |services|
  {
    if services != [] && services[0].name != name {
      FindFirst(services[1..], name);
      assert forall i | 1 <= i < |services| :: services[i] == services[1..][i - 1];
      if Find(services, name).Some? {
        var i :| 0 <= i < |services[1..]| && Find(services, name).value == services[1..][i]
            && services[1..][i].name == name
                 && forall j | 0 <= j < i :: services[1..][j].name != name;
        assert services[i + 1].name == name && forall j | 0 <= j < i + 1 :: services[j].name != name;
      }
    }
  }

  predicate Named(services: seq<Service>, name: string) {
    exists i :: 0 <= i < |services| && services[i].name == name
  }

  /** Extraction throws exactly when one of the two services is missing. */
  lemma ExtractionTotal(tx: Transaction, scale: real)
    requires scale != 0.0
    ensures ExtractAgeLiveness(tx, scale).Ok? <==>
              Named(tx.services, "face_liveness") && Named(tx.services, "face_details")
    ensures ExtractDocument(tx, scale).Ok? <==> Named(tx.services, "ocr") && Named(tx.services, "facematch")
  {
    FindFirst(tx.services, "face_liveness");
    FindFirst(tx.services, "face_details");
    FindFirst(tx.services, "ocr");
    FindFirst(tx.services, "facematch");
  }

  /** The i-th service is the first of that name. */
  predicate IsFirst(services: seq<Service>, i: int, name: string) {
    0 <= i < |services| && services[i].name == name && forall j | 0 <= j < i :: services[j].name != name
  }

  lemma FirstFound(services: seq<Service>, i: int, name: string)
    requires IsFirst(services, i, name)
    ensures Find(services, name) == Some(services[i])
  {
    FindFirst(services, name);
  }

  /** What comes out of the first service of each name: the liveness probability in units of the scale,
      and the lower end of the age range; what is missing counts as 0. */
  lemma AgeLivenessExact(tx: Transaction, scale: real, i: int, j: int)
    requires scale != 0.0 && IsFirst(tx.services, i, "face_liveness") && IsFirst(tx.services, j, "face_details")
    ensures ExtractAgeLiveness(tx, scale).Ok?
    ensures var x, p, low := ExtractAgeLiveness(tx, scale).value, tx.services[i].data.probability,
                             tx.services[j].data.ageRangeLow;
            && x.livenessScore * scale == (if p.Some? then p.value else 0.0)
            && x.estimatedAge == if low.Some? then low.value else 0.0
  {
    FirstFound(tx.services, i, "face_liveness");
    FirstFound(tx.services, j, "face_details");
  }

  /** For documents: the birth date of ocr, and the confidence and the outcome of facematch. */
  lemma DocumentExact(tx: Transaction, scale: real, i: int, j: int)
    requires scale != 0.0 && IsFirst(tx.services, i, "ocr") && IsFirst(tx.services, j, "facematch")
    ensures ExtractDocument(tx, scale).Ok?
    ensures var x, c := ExtractDocument(tx, scale).value, tx.services[j].data.confidence;
            && x.faceMatchScore * scale == (if c.Some? then c.value else 0.0)
            && x.birthDate == tx.services[i].data.birthDate && x.identical == tx.services[j].data.identical
  {
    FirstFound(tx.services, i, "ocr");
    FirstFound(tx.services, j, "facematch");
  }

  /** Extraction names the service that is missing, the first of the two first. */
  lemma MissingNamed(tx: Transaction, scale: real)
    requires scale != 0.0
    ensures !Named(tx.services, "face_liveness") ==>
              ExtractAgeLiveness(tx, scale) == Err(MissingService("face_liveness"))
    ensures Named(tx.services, "face_liveness") && !Named(tx.services, "face_details") ==>
              ExtractAgeLiveness(tx, scale) == Err(MissingService("face_details"))
    ensures !Named(tx.services, "ocr") ==> ExtractDocument(tx, scale) == Err(MissingService("ocr"))
    ensures Named(tx.services, "ocr") && !Named(tx.services, "facematch") ==>
              ExtractDocument(tx, scale) == Err(MissingService("facematch"))
  {
    FindFirst(tx.services, "face_liveness");
    FindFirst(tx.services, "face_details");
    FindFirst(tx.services, "ocr");
    FindFirst(tx.services, "facematch");
  }

  /** Missing provider data never approves anyone: without a liveness score the answer is no, and
      without an age range it is never yes, for thresholds above zero. */
  lemma MissingDataNeverApproves(tx: Transaction, scale: real, cfg: Decision.Config)
    requires scale != 0.0 && ExtractAgeLiveness(tx, scale).Ok?
    requires cfg.livenessThreshold > 0.0 && cfg.cutoffAge + cfg.margin > 0.0
    ensures var status := Decision.DecideVerification(ExtractAgeLiveness(tx, scale).value, cfg);
            && (Find(tx.services, "face_liveness").value.data.probability.None? ==> status == Decision.Reprovado)
            && (Find(tx.services, "face_details").value.data.ageRangeLow.None? ==> status != Decision.Aprovado)
  {
  }

  /** The same for documents: without a face match score or a birth date there is no approval,
      for a positive face match threshold. */
  lemma MissingOcrNeverApproves(tx: Transaction, scale: real, birth: Decision.BirthDate, at: int, cutoff: real,
      minFaceMatch: real)
    requires scale != 0.0 && ExtractDocument(tx, scale).Ok? && minFaceMatch > 0.0
    requires ExtractDocument(tx, scale).value.birthDate.None? ==> birth.NoBirthDate?
    ensures var x := ExtractDocument(tx, scale).value;
            var check := Decision.DocumentCheck(birth, x.faceMatchScore, x.identical);
            Find(tx.services, "facematch").value.data.confidence.None?
                || Find(tx.services, "ocr").value.data.birthDate.None? ==>
              Decision.DecideDocument(Decision.AgeFromDocument(birth, at), check, cutoff, minFaceMatch)
                  == Decision.Reprovado
  {
  }
}
