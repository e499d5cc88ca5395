/** The hybrid rule that turns provider output into a verdict, and the reason stored with it.
    Scores and ages are finite reals. */
module Decision {
  import opened Wrappers
  import opened Calendar

  datatype Status = Aprovado | Reprovado | DocumentoRequerido

  datatype AgeResult = AgeResult(estimatedAge: real, livenessScore: real)

  datatype Config = Config(cutoffAge: real, margin: real, livenessThreshold: real)

  function DecideVerification(r: AgeResult, cfg: Config): Status {
    if r.livenessScore < cfg.livenessThreshold then Reprovado
    else if r.estimatedAge >= cfg.cutoffAge + cfg.margin then Aprovado
    else if r.estimatedAge < cfg.cutoffAge - cfg.margin then Reprovado
    else DocumentoRequerido
  }

  predicate IsOver18(s: Status) {
    s == Aprovado
  }

  /** The per-tenant override of the face check, where 0 falls back to the configured cutoff. */
  function FaceConfig(cfg: Config, requiredAge: int): Config {
    if requiredAge != 0 then cfg.(cutoffAge := requiredAge as real) else cfg
  }

  /** The rule of the face check, over the configured numbers: a face that is not live is refused; a
      live one is approved from the margin above the cutoff on, refused from the margin below it
      down, and sent to the document check in between. Approval goes first. */
  predicate FaceRule(base: Config, requiredAge: int, r: AgeResult, s: Status) {
    var live, x := r.livenessScore >= base.livenessThreshold, r.estimatedAge;
    var cutoff := if requiredAge == 0 then base.cutoffAge else requiredAge as real;
    match s
    case Aprovado => live && x >= cutoff + base.margin
    case Reprovado => !live || (x < cutoff - base.margin && x < cutoff + base.margin)
    case DocumentoRequerido => live && cutoff - base.margin <= x < cutoff + base.margin
  }

  /** The thresholds of a tenant: its age as the cutoff, everything else as configured. */
  predicate FaceThresholds(base: Config, requiredAge: int, c: Config) {
    && c.cutoffAge == (if requiredAge == 0 then base.cutoffAge else requiredAge as real)
    && c.margin == base.margin && c.livenessThreshold == base.livenessThreshold
  }

  /** Deciding under the overridden configuration is the rule over the configured one. */
  lemma FaceRuleExact(base: Config, requiredAge: int, r: AgeResult, s: Status)
    ensures s == DecideVerification(r, FaceConfig(base, requiredAge)) <==> FaceRule(base, requiredAge, r, s)
    ensures FaceThresholds(base, requiredAge, FaceConfig(base, requiredAge))
  {
  }

  /** The override of the document check, where only a missing value would fall back: the
      column is never null, so 0 would be used as it is. */
  function DocumentCutoff(cfg: Config, requiredAge: Option<int>): real {
    if requiredAge.Some? then requiredAge.value as real else cfg.cutoffAge
  }

  /** The two phases read the same cutoff from a tenant row exactly when the row is not 0 or
      the configured cutoff is 0 as well. */
  lemma PhasesAgreeOnCutoff(cfg: Config, requiredAge: int)
    ensures FaceConfig(cfg, requiredAge).cutoffAge == DocumentCutoff(cfg, Some(requiredAge))
            <==> (requiredAge != 0 || cfg.cutoffAge == 0.0)
    ensures DocumentCutoff(cfg, Some(requiredAge)) == requiredAge as real && DocumentCutoff(cfg, None) == cfg.cutoffAge
  {
  }

  // ----- documents -----

  /** The birth date that OCR read: none, text that is no date, or a date. */
  datatype BirthDate = NoBirthDate | NotADate | Born(date: Date)

  datatype DocumentCheck = DocumentCheck(birth: BirthDate, faceMatchScore: real, identical: bool)

  /** ageFromDoc: null, NaN, or a number of years. */
  datatype DocumentAge = NoAge | NotANumber | Years(n: int)

  function AgeFromDocument(birth: BirthDate, now: int): DocumentAge {
    match birth
    case NoBirthDate => NoAge
    case NotADate => NotANumber
    case Born(d) => Years(Age(d, DateAt(now)))
  }

  /** JavaScript's `age < cutoff`, which is false of NaN. */
  predicate AgeBelow(age: DocumentAge, cutoff: real) {
    age.Years? && age.n as real < cutoff
  }

  function DecideDocument(age: DocumentAge, c: DocumentCheck, cutoff: real, minFaceMatch: real): Status {
    if !c.identical || c.faceMatchScore < minFaceMatch then Reprovado
    else if age.NoAge? || AgeBelow(age, cutoff) then Reprovado
    else Aprovado
  }

  /** The k-th birthday of someone born on d has come at instant now. */
  predicate BirthdayReached(d: Date, k: int, now: int) {
    !Before(DateAt(now), Date(d.year + k, d.month, d.day))
  }

  /** The bar of the document check: the same face, and the birthday has come, unless OCR produced
      text that is no date. */
  predicate DocumentPasses(c: DocumentCheck, age: int, minFaceMatch: real, at: int) {
    c.identical && c.faceMatchScore >= minFaceMatch
    && (c.birth.NotADate? || (c.birth.Born? && BirthdayReached(c.birth.date, age, at)))
  }

  /** For a matching face, approval by document means that the cutoff birthday has come,
      exactly when OCR produced either nothing or a real date; text that is no date passes. The
      birthday comes with the first millisecond of its day, day 0 being 1970-01-01. */
  lemma DocumentApproval(c: DocumentCheck, cutoff: int, minFaceMatch: real, now: int)
    ensures DecideDocument(AgeFromDocument(c.birth, now), c, cutoff as real, minFaceMatch) == Aprovado
            <==> DocumentPasses(c, cutoff, minFaceMatch, now)
    ensures c.birth.Born? && ValidDate(c.birth.date) ==>
              (BirthdayReached(c.birth.date, cutoff, now)
               <==> DayNumber(Date(c.birth.date.year + cutoff, c.birth.date.month,
                   c.birth.date.day)) * 86_400_000 <= now)
    ensures DecideDocument(AgeFromDocument(c.birth, now), c, cutoff as real, minFaceMatch) != DocumentoRequerido
  {
    if c.birth.Born? && ValidDate(c.birth.date) { BirthdayInstant(c.birth.date, cutoff, now); }
  }

  /** A document that was once good enough stays so, for the same face match and cutoff. */
  lemma DocumentStaysApproved(c: DocumentCheck, dob: int, cutoff: real, minFaceMatch: real, now: int, later: int)
    requires now <= later && c.birth == Born(DateOfDay(dob))
    requires DecideDocument(AgeFromDocument(c.birth, now), c, cutoff, minFaceMatch) == Aprovado
    ensures DecideDocument(AgeFromDocument(c.birth, later), c, cutoff, minFaceMatch) == Aprovado
  {
    AgeMonotone(dob, now / MS_PER_DAY, later / MS_PER_DAY);
  }

  // ----- the stored reason -----

  /** The comparison that decisionReason spells out, with the numbers it prints. */
  datatype Reason =
    | LivenessBelow(score: real, threshold: real)
    | AgeAtLeast(age: real, cutoff: real, margin: real, bound: real)
    | AgeUnder(age: real, cutoff: real, margin: real, bound: real)
    | GreyZone(age: real, low: real, high: real)
    | DocumentAgeAtLeast(docAge: DocumentAge, cutoff: real, faceMatch: real)
    | DocumentRefused(docAge: DocumentAge, faceMatch: real, cutoff: real)

  function ExplainAgeDecision(r: AgeResult, cfg: Config, s: Status): Reason {
    if s == Reprovado && r.livenessScore < cfg.livenessThreshold then
      LivenessBelow(r.livenessScore, cfg.livenessThreshold)
    else if s == Aprovado then
      AgeAtLeast(r.estimatedAge, cfg.cutoffAge, cfg.margin, cfg.cutoffAge + cfg.margin)
    else if s == Reprovado then
      AgeUnder(r.estimatedAge, cfg.cutoffAge, cfg.margin, cfg.cutoffAge - cfg.margin)
    else
      GreyZone(r.estimatedAge, cfg.cutoffAge - cfg.margin, cfg.cutoffAge + cfg.margin)
  }

  /** The reason of a document record: only an approval prints a comparison. */
  function ExplainDocument(age: DocumentAge, c: DocumentCheck, cutoff: real, s: Status): Reason {
    if s == Aprovado then DocumentAgeAtLeast(age, cutoff, c.faceMatchScore)
    else DocumentRefused(age, c.faceMatchScore, cutoff)
  }

  predicate Holds(x: Reason) {
    match x
    case LivenessBelow(score, threshold) => score < threshold
    case AgeAtLeast(age, cutoff, margin, bound) => bound == cutoff + margin && age >= bound
    case AgeUnder(age, cutoff, margin, bound) => bound == cutoff - margin && age < bound
    case GreyZone(age, low, high) => low <= age < high
    case DocumentAgeAtLeast(age, cutoff, _) => age.Years? && age.n as real >= cutoff
    case DocumentRefused(_, _, _) => true
  }

  /** The reason printed for a document is true of its numbers exactly when it is a refusal or the
      birth date is a date: an approval of text that is no date prints NaN >= cutoff. */
  lemma DocumentReasonIsTrue(c: DocumentCheck, cutoff: real, minFaceMatch: real, at: int)
    ensures var age := AgeFromDocument(c.birth, at);
            var s := DecideDocument(age, c, cutoff, minFaceMatch);
            Holds(ExplainDocument(age, c, cutoff, s)) <==> s != Aprovado || c.birth.Born?
    ensures var age := AgeFromDocument(c.birth, at);
            var s := DecideDocument(age, c, cutoff, minFaceMatch);
            match ExplainDocument(age, c, cutoff, s)
            case DocumentAgeAtLeast(n, bound, score) =>
              s == Aprovado && n == age && bound == cutoff && score == c.faceMatchScore
            case DocumentRefused(n, score, bound) =>
              s == Reprovado && n == age && bound == cutoff && score == c.faceMatchScore
            case _ => false
  {
  }

  /** The reason names the numbers of the result and of the thresholds that it compares. */
  predicate NamesNumbers(x: Reason, r: AgeResult, cfg: Config) {
    match x
    case LivenessBelow(score, threshold) => score == r.livenessScore && threshold == cfg.livenessThreshold
    case AgeAtLeast(age, cutoff, margin, _) => age == r.estimatedAge && cutoff == cfg.cutoffAge && margin == cfg.margin
    case AgeUnder(age, cutoff, margin, _) => age == r.estimatedAge && cutoff == cfg.cutoffAge && margin == cfg.margin
    case GreyZone(age, low, high) =>
      age == r.estimatedAge && low == cfg.cutoffAge - cfg.margin && high == cfg.cutoffAge + cfg.margin
    case _ => false
  }

  /** The reason is true of the stored numbers, and pins the verdict down: for a live face it
      holds of one status only, unless a negative margin makes the two bounds overlap. */
  lemma ReasonIsTrue(r: AgeResult, cfg: Config, s: Status)
    ensures NamesNumbers(ExplainAgeDecision(r, cfg, s), r, cfg)
    ensures s == DecideVerification(r, cfg) ==> Holds(ExplainAgeDecision(r, cfg, s))
    ensures r.livenessScore >= cfg.livenessThreshold && cfg.margin >= 0.0 ==>
              (Holds(ExplainAgeDecision(r, cfg, s)) <==> s == DecideVerification(r, cfg))
  {
  }
}
