/** The catalogue side of the assessment page: assets, threats and
    assessments, the entry forms behind them, and the three submissions
    that validate a form, hand a row to the store and, on success, append
    the stored record and reset the form. The store is an oracle that
    answers with the new row's id or an error message. */
module Ledger {
  import opened Seqs
  import opened Risk

  datatype Asset = Asset(
    id: int, code: string, name: string, kind: string, value: real,
    authenticity: real, confidentiality: real, integrity: real, availability: real, traceability: real)

  datatype Threat = Threat(
    id: int, code: string, name: string, group: string, frequency: string, frequencyValue: real,
    affectedDimensions: seq<string>, affectedTypes: seq<string>)

  datatype Assessment = Assessment(
    id: int, assetId: int, threatId: int, impact: string, impactValue: real,
    controlEffectiveness: real, intrinsicRisk: real, residualRisk: real, date: string)

  /** The asset entry form (an asset without its id). */
  datatype AssetForm = AssetForm(
    code: string, name: string, kind: string, value: real,
    authenticity: real, confidentiality: real, integrity: real, availability: real, traceability: real)

  /** The threat entry form (a threat without its id). */
  datatype ThreatForm = ThreatForm(
    code: string, name: string, group: string, frequency: string, frequencyValue: real,
    affectedDimensions: seq<string>, affectedTypes: seq<string>)

  /** The assessment picker: asset code, threat code, impact code and the
      control-effectiveness slider. */
  datatype Selection = Selection(asset: string, threat: string, impact: string, control: real)

  const BlankAssetForm := AssetForm("", "", "", 100000.0, 0.0, 0.0, 0.0, 0.0, 0.0)
  const BlankThreatForm := ThreatForm("", "", "", "", 0.0, [], [])
  const BlankSelection := Selection("", "", "", 0.0)

  /** What the store answers to an insert. */
  datatype StoreReply = Stored(id: int) | StoreFailed(error: string)

  datatype NoticeKind = Success | Error | Info
  datatype Notice = Notice(kind: NoticeKind, message: string)

  const MissingFields := "Por favor, complete todos los campos requeridos"
  const MissingSelection := "Por favor, seleccione un activo, una amenaza y un impacto"

  /** The page's state: the three lists and the three forms. */
  datatype Page = Page(
    assets: seq<Asset>, threats: seq<Threat>, assessments: seq<Assessment>,
    assetForm: AssetForm, threatForm: ThreatForm, selection: Selection)

  /** The outcome of one submission: the page afterwards, the row handed to
      the store (`None` when the store was not called) and the notice shown. */
  datatype Submission<Row> = Submission(page: Page, sent: Option<Row>, notice: Notice)

  /** `error || fallback`: an empty message falls back to the default. */
  function ErrorText(error: string, fallback: string): string
  {
    if error != "" then error else fallback
  }

  function AssetOf(f: AssetForm, id: int): Asset {
    Asset(id, f.code, f.name, f.kind, f.value,
          f.authenticity, f.confidentiality, f.integrity, f.availability, f.traceability)
  }

  function FormOfAsset(a: Asset): AssetForm {
    AssetForm(a.code, a.name, a.kind, a.value,
              a.authenticity, a.confidentiality, a.integrity, a.availability, a.traceability)
  }

  function ThreatOf(f: ThreatForm, id: int): Threat {
    Threat(id, f.code, f.name, f.group, f.frequency, f.frequencyValue, f.affectedDimensions, f.affectedTypes)
  }

  function FormOfThreat(t: Threat): ThreatForm {
    ThreatForm(t.code, t.name, t.group, t.frequency, t.frequencyValue, t.affectedDimensions, t.affectedTypes)
  }

  /** A stored record is the submitted form plus the id the store assigned:
      reading the form back out gives the input unchanged. */
  lemma StoredRecordRoundTrip(af: AssetForm, tf: ThreatForm, id: int)
    ensures FormOfAsset(AssetOf(af, id)) == af && AssetOf(af, id).id == id
    ensures FormOfThreat(ThreatOf(tf, id)) == tf && ThreatOf(tf, id).id == id
    ensures forall a: Asset :: AssetOf(FormOfAsset(a), a.id) == a
  {
  }

  predicate AssetFormComplete(f: AssetForm) {
    f.code != "" && f.name != "" && f.kind != ""
  }

  predicate ThreatFormComplete(f: ThreatForm) {
    f.code != "" && f.name != "" && f.group != "" && f.frequency != ""
  }

  /** addAsset: submit the asset form. */
  function AddAsset(p: Page, store: AssetForm -> StoreReply): (s: Submission<AssetForm>)
    ensures s.sent.Some? <==> AssetFormComplete(p.assetForm)
    ensures s.sent.Some? ==> s.sent.value == p.assetForm
    ensures s.notice.kind == Success <==> s.sent.Some? && store(p.assetForm).Stored?
    ensures s.notice.kind == Success ==>
              s.page == p.(assets := p.assets + [AssetOf(p.assetForm, store(p.assetForm).id)],
                           assetForm := BlankAssetForm)
    ensures s.notice.kind != Success ==> s.page == p
    ensures !AssetFormComplete(p.assetForm) ==> s.notice == Notice(Error, MissingFields)
    ensures s.sent.Some? && store(p.assetForm).StoreFailed?
            ==> s.notice == Notice(Error, ErrorText(store(p.assetForm).error, "Error al añadir activo"))
  {
    if AssetFormComplete(p.assetForm) then
      match store(p.assetForm)
      case Stored(id) =>
        Submission(p.(assets := p.assets + [AssetOf(p.assetForm, id)], assetForm := BlankAssetForm),
                   Some(p.assetForm), Notice(Success, "Activo añadido con éxito"))
      case StoreFailed(error) =>
        Submission(p, Some(p.assetForm), Notice(Error, ErrorText(error, "Error al añadir activo")))
    else
      Submission(p, None, Notice(Error, MissingFields))
  }

  /** addThreat: submit the threat form. */
  function AddThreat(p: Page, store: ThreatForm -> StoreReply): (s: Submission<ThreatForm>)
    ensures s.sent.Some? <==> ThreatFormComplete(p.threatForm)
    ensures s.sent.Some? ==> s.sent.value == p.threatForm
    ensures s.notice.kind == Success <==> s.sent.Some? && store(p.threatForm).Stored?
    ensures s.notice.kind == Success ==>
              s.page == p.(threats := p.threats + [ThreatOf(p.threatForm, store(p.threatForm).id)],
                           threatForm := BlankThreatForm)
    ensures s.notice.kind != Success ==> s.page == p
    ensures !ThreatFormComplete(p.threatForm) ==> s.notice == Notice(Error, MissingFields)
    ensures s.sent.Some? && store(p.threatForm).StoreFailed?
            ==> s.notice == Notice(Error, ErrorText(store(p.threatForm).error, "Error al añadir amenaza"))
  {
    if ThreatFormComplete(p.threatForm) then
      match store(p.threatForm)
      case Stored(id) =>
        Submission(p.(threats := p.threats + [ThreatOf(p.threatForm, id)], threatForm := BlankThreatForm),
                   Some(p.threatForm), Notice(Success, "Amenaza añadida con éxito"))
      case StoreFailed(error) =>
        Submission(p, Some(p.threatForm), Notice(Error, ErrorText(error, "Error al añadir amenaza")))
    else
      Submission(p, None, Notice(Error, MissingFields))
  }

  /** The first asset carrying `code` (`assets.find((a) => a.code === code)`). */
  function AssetIndex(assets: seq<Asset>, code: string): (r: Option<nat>)
    ensures r.Some? ==> r.value < |assets| && assets[r.value].code == code
    ensures r.Some? ==> forall j :: 0 <= j < r.value ==> assets[j].code != code
    ensures r.None? <==> forall j :: 0 <= j < |assets| ==> assets[j].code != code
  {
    FindIndex(assets, (a: Asset) => a.code == code)
  }

  /** The first threat carrying `code`. */
  function ThreatIndex(threats: seq<Threat>, code: string): (r: Option<nat>)
    ensures r.Some? ==> r.value < |threats| && threats[r.value].code == code
    ensures r.Some? ==> forall j :: 0 <= j < r.value ==> threats[j].code != code
    ensures r.None? <==> forall j :: 0 <= j < |threats| ==> threats[j].code != code
  {
    FindIndex(threats, (t: Threat) => t.code == code)
  }

  /** addAssessment: resolve the picked codes, compute the risks with the
      current slider value and submit. `provisional` stands for the
      client-side id the record carries before the store assigns one, and
      `today` for the formatted date. */
  function AddAssessment(p: Page, store: Assessment -> StoreReply, provisional: int, today: string)
    : (s: Submission<Assessment>)
    ensures s.sent.Some? <==>
              AssetIndex(p.assets, p.selection.asset).Some? && ThreatIndex(p.threats, p.selection.threat).Some?
              && p.selection.impact != ""
    ensures s.sent.Some? ==>
              var a := s.sent.value;
              var asset := p.assets[AssetIndex(p.assets, p.selection.asset).value];
              var threat := p.threats[ThreatIndex(p.threats, p.selection.threat).value];
              && asset.code == p.selection.asset && a.assetId == asset.id
              && threat.code == p.selection.threat && a.threatId == threat.id
              && a.impact == p.selection.impact && a.impactValue == ImpactPercentage(p.selection.impact)
              && a.controlEffectiveness == p.selection.control
              && a.intrinsicRisk == IntrinsicRisk(asset.value, threat.frequencyValue, a.impactValue)
              && a.residualRisk == ResidualRisk(a.intrinsicRisk, p.selection.control)
              && a.date == today
    ensures s.notice.kind == Success <==> s.sent.Some? && store(s.sent.value).Stored?
    ensures s.notice.kind == Success ==>
              s.page == p.(assessments := p.assessments + [s.sent.value.(id := store(s.sent.value).id)],
                           selection := BlankSelection)
    ensures s.notice.kind != Success ==> s.page == p
    ensures s.sent.None? ==> s.notice == Notice(Error, MissingSelection)
    ensures s.sent.Some? && store(s.sent.value).StoreFailed?
            ==> s.notice == Notice(Error, ErrorText(store(s.sent.value).error, "Error al añadir evaluación"))
  {
    var ai := AssetIndex(p.assets, p.selection.asset);
    var ti := ThreatIndex(p.threats, p.selection.threat);
    if ai.Some? && ti.Some? && p.selection.impact != "" then
      var asset := p.assets[ai.value];
      var threat := p.threats[ti.value];
      var impactValue := ImpactPercentage(p.selection.impact);
      var risks := CalculateRisks(asset.value, threat.frequencyValue, impactValue, p.selection.control);
      var a := Assessment(provisional, asset.id, threat.id, p.selection.impact, impactValue,
                          p.selection.control, risks.intrinsic, risks.residual, today);
      match store(a)
      case Stored(id) =>
        Submission(p.(assessments := p.assessments + [a.(id := id)], selection := BlankSelection),
                   Some(a), Notice(Success, "Evaluación de riesgo añadida con éxito"))
      case StoreFailed(error) =>
        Submission(p, Some(a), Notice(Error, ErrorText(error, "Error al añadir evaluación")))
    else
      Submission(p, None, Notice(Error, MissingSelection))
  }

  /** Choosing a frequency class in the threat form: the code is kept and
      the multiplier is looked up in the table (0 for an unknown code). */
  function SelectFrequency(f: ThreatForm, code: string): (g: ThreatForm)
    ensures g.frequency == code
    ensures forall i :: 0 <= i < |Frequencies| && Frequencies[i].code == code ==> g.frequencyValue == Frequencies[i].multiplier
    ensures !IsFrequencyCode(code) ==> g.frequencyValue == 0.0
    ensures g.(frequency := f.frequency, frequencyValue := f.frequencyValue) == f
  {
    f.(frequency := code, frequencyValue := FrequencyValue(code))
  }

  /** A checkbox change on a list of keys: checking appends the key,
      unchecking removes every occurrence of it. */
  function ToggleKey(keys: seq<string>, key: string, checked: bool): (r: seq<string>)
    ensures checked ==> |r| == |keys| + 1 && r[..|keys|] == keys && r[|keys|] == key
    ensures !checked ==> key !in r
    ensures !checked ==> forall k :: k != key ==> multiset(r)[k] == multiset(keys)[k]
    ensures !checked ==> Subsequence(r, keys)
    ensures !checked && key !in keys ==> r == keys
  {
    if checked then keys + [key]
    else
      assert key !in keys ==> Without(keys, key) == keys by {
        if key !in keys { WithoutAbsent(keys, key); }
      }
      Without(keys, key)
  }

  /** Checking a box that was clear and then clearing it again restores the
      list exactly. */
  lemma {:induction false} ToggleRoundTrip(keys: seq<string>, key: string)
    requires key !in keys
    ensures ToggleKey(ToggleKey(keys, key, true), key, false) == keys
  {
    WithoutConcat(keys, [key], key);
    WithoutAbsent(keys, key);
    assert Without([key], key) == [];
  }

  /** The "affected dimensions" checkboxes of the threat form. */
  function ToggleDimension(f: ThreatForm, key: string, checked: bool): (g: ThreatForm)
    ensures checked ==> key in g.affectedDimensions
    ensures !checked ==> key !in g.affectedDimensions
    ensures g.(affectedDimensions := f.affectedDimensions) == f
  {
    f.(affectedDimensions := ToggleKey(f.affectedDimensions, key, checked))
  }

  /** The "affected asset types" checkboxes of the threat form. */
  function ToggleAssetType(f: ThreatForm, key: string, checked: bool): (g: ThreatForm)
    ensures checked ==> key in g.affectedTypes
    ensures !checked ==> key !in g.affectedTypes
    ensures g.(affectedTypes := f.affectedTypes) == f
  {
    f.(affectedTypes := ToggleKey(f.affectedTypes, key, checked))
  }

  /** An assessment points at an asset and a threat that are on the page. */
  predicate Resolves(p: Page, a: Assessment) {
    && (exists i :: 0 <= i < |p.assets| && p.assets[i].id == a.assetId)
    && (exists j :: 0 <= j < |p.threats| && p.threats[j].id == a.threatId)
  }

  /** The page invariant: non-negative asset values, multipliers that are
      fractions, a slider within [0, 100], and every assessment resolving
      its references with 0 <= residual <= intrinsic. The asset form's value
      is not part of it: the Valor input accepts any number. */
  predicate WellFormed(p: Page) {
    && (forall i :: 0 <= i < |p.assets| ==> 0.0 <= p.assets[i].value)
    && (forall j :: 0 <= j < |p.threats| ==> 0.0 <= p.threats[j].frequencyValue <= 1.0)
    && 0.0 <= p.threatForm.frequencyValue <= 1.0
    && 0.0 <= p.selection.control <= 100.0
    && forall k :: 0 <= k < |p.assessments| ==>
         Resolves(p, p.assessments[k]) && 0.0 <= p.assessments[k].residualRisk <= p.assessments[k].intrinsicRisk
  }

  lemma ResolvesGrows(p: Page, q: Page, a: Assessment)
    requires Resolves(p, a)
    requires p.assets <= q.assets && p.threats <= q.threats
    ensures Resolves(q, a)
  {
    var i :| 0 <= i < |p.assets| && p.assets[i].id == a.assetId;
    assert q.assets[i] == p.assets[i];
    var j :| 0 <= j < |p.threats| && p.threats[j].id == a.threatId;
    assert q.threats[j] == p.threats[j];
  }

  /** Adding an asset keeps the page well formed exactly when it does not
      store a negative value: nothing on the page rules one out. */
  lemma AddAssetPreservesWellFormed(p: Page, store: AssetForm -> StoreReply)
    requires WellFormed(p)
    ensures WellFormed(AddAsset(p, store).page)
            <==> (AddAsset(p, store).notice.kind == Success ==> 0.0 <= p.assetForm.value)
  {
    var q := AddAsset(p, store).page;
    if q != p {
      assert q.assets[|p.assets|] == AssetOf(p.assetForm, store(p.assetForm).id);
      forall k | 0 <= k < |q.assessments|
        ensures Resolves(q, q.assessments[k])
      {
        ResolvesGrows(p, q, p.assessments[k]);
      }
    }
  }

  /** A complete form with a negative value is stored like any other, and
      an assessment of that asset then has a residual risk above its
      intrinsic one. */
  lemma NegativeValueAccepted(p: Page, store: AssetForm -> StoreReply)
    requires WellFormed(p)
    requires p.assetForm == BlankAssetForm.(code := "A1", name := "Servidor", kind := "hardware", value := -1000.0)
    requires store(p.assetForm).Stored?
    ensures AddAsset(p, store).notice.kind == Success
    ensures !WellFormed(AddAsset(p, store).page)
    ensures CalculateRisks(-1000.0, 1.0, 100.0, 50.0) == Risks(-1000.0, -500.0)
  {
    AddAssetPreservesWellFormed(p, store);
  }

  /** Adding a threat keeps the page well formed. */
  lemma AddThreatPreservesWellFormed(p: Page, store: ThreatForm -> StoreReply)
    requires WellFormed(p)
    ensures WellFormed(AddThreat(p, store).page)
  {
    var q := AddThreat(p, store).page;
    if q != p {
      forall k | 0 <= k < |q.assessments|
        ensures Resolves(q, q.assessments[k])
      {
        ResolvesGrows(p, q, p.assessments[k]);
      }
    }
  }

  /** The record handed to the store refers to resolved records and has
      its risks ordered. */
  lemma SentAssessmentSound(p: Page, store: Assessment -> StoreReply, provisional: int, today: string)
    requires WellFormed(p)
    ensures var s := AddAssessment(p, store, provisional, today);
            s.sent.Some? ==> Resolves(p, s.sent.value) && 0.0 <= s.sent.value.residualRisk <= s.sent.value.intrinsicRisk
  {
    var s := AddAssessment(p, store, provisional, today);
    if s.sent.Some? {
      var a := s.sent.value;
      var asset := p.assets[AssetIndex(p.assets, p.selection.asset).value];
      var threat := p.threats[ThreatIndex(p.threats, p.selection.threat).value];
      assert 0.0 <= asset.value;
      assert 0.0 <= threat.frequencyValue <= 1.0;
      assert 0.0 <= a.impactValue <= 100.0;
      assert 0.0 <= a.intrinsicRisk;
    }
  }

  /** Adding an assessment keeps the page well formed: the new record
      refers to resolved records and its risks are ordered. */
  lemma AddAssessmentPreservesWellFormed(p: Page, store: Assessment -> StoreReply, provisional: int, today: string)
    requires WellFormed(p)
    ensures WellFormed(AddAssessment(p, store, provisional, today).page)
  {
    var s := AddAssessment(p, store, provisional, today);
    SentAssessmentSound(p, store, provisional, today);
    if s.notice.kind == Success {
      var a := s.sent.value;
      var q := s.page;
      assert q.assets == p.assets && q.threats == p.threats;
      assert q.assessments == p.assessments + [a.(id := store(a).id)];
      forall k | 0 <= k < |q.assessments|
        ensures Resolves(q, q.assessments[k])
        ensures 0.0 <= q.assessments[k].residualRisk <= q.assessments[k].intrinsicRisk
      {
        if k < |p.assessments| {
          assert q.assessments[k] == p.assessments[k];
        } else {
          assert q.assessments[k] == a.(id := store(a).id);
        }
      }
    }
  }

  /** Choosing a frequency keeps the page well formed. */
  lemma SelectFrequencyPreservesWellFormed(p: Page, code: string)
    requires WellFormed(p)
    ensures WellFormed(p.(threatForm := SelectFrequency(p.threatForm, code)))
  {
    var q := p.(threatForm := SelectFrequency(p.threatForm, code));
    forall k | 0 <= k < |q.assessments|
      ensures Resolves(q, q.assessments[k])
    {
      assert Resolves(p, p.assessments[k]);
    }
  }
}
