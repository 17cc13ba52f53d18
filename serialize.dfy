/**
 * Reason values and the reason-code catalogue of core/serialize/src/lib.rs,
 * plus the document normalisation applied before schema validation.
 */
module Serialize {
  import opened Wrappers
  import opened Json

  /** The closed list of kernel reason codes, in declaration order. */
  datatype ReasonCode =
    | SerializeSchemaValidationFailed
    | SerializePackageCorrupted
    | SerializeUnsupportedSchemaVersion
    | ModelReferenceNotFound
    | GeomInvalidNumeric
    | GeomNoIntersection
    | GeomIntersectionAmbiguous
    | GeomDegenerate
    | GeomSplitPointNotOnGeom
    | GeomArcRangeInvalid
    | GeomCircleRadiusInvalid
    | GeomFallbackLimitReached
    | CoreInvariantViolation
    | GeomOffsetSelfIntersection
    | GeomOffsetNotSupported
    | GeomTrimNoIntersection
    | EditAmbiguousTarget
    | EditTrimAmbiguousCandidate
    | EditNoSelection
    | EditTargetLockedOrHidden
    | EditInvalidNumeric
    | EditTransformWouldDegenerate
    | DrawInvalidNumeric
    | DrawConstraintConflict
    | DrawInsufficientInput
    | EditFilletRadiusTooLarge
    | EditChamferDistanceTooLarge
    | EditMirrorAxisInvalid
    | EditPatternInvalidParams
    | EditAmbiguousCandidate
    | EditCandidateNotFound
    | FaceNoClosedLoop
    | FaceSelfIntersection
    | FaceAmbiguousLoop
    | PartInvalidOutline
    | PartInvalidFields
    | MaterialNotFound
    | BomExportFailed
    | ExportPdfFailed
    | ExportUnsupportedEntity
    | ExportUnsupportedFeature
    | ExportIoParseFailed
    | ExportIoWriteFailed
    | NestPartTooLargeForAnySheet
    | NestGrainConstraintBlocksFit
    | NestNoFeasiblePositionWithMarginAndKerf
    | NestNoGoZoneBlocksFit
    | NestStoppedByTimeLimit
    | NestStoppedByIterationLimit
    | NestInternalInfeasible

  /** The wire name of a code. */
  function AsStr(c: ReasonCode): string
  {
    match c
    case SerializeSchemaValidationFailed => "SERIALIZE_SCHEMA_VALIDATION_FAILED"
    case SerializePackageCorrupted => "SERIALIZE_PACKAGE_CORRUPTED"
    case SerializeUnsupportedSchemaVersion => "SERIALIZE_UNSUPPORTED_SCHEMA_VERSION"
    case ModelReferenceNotFound => "MODEL_REFERENCE_NOT_FOUND"
    case GeomInvalidNumeric => "GEOM_INVALID_NUMERIC"
    case GeomNoIntersection => "GEOM_NO_INTERSECTION"
    case GeomIntersectionAmbiguous => "GEOM_INTERSECTION_AMBIGUOUS"
    case GeomDegenerate => "GEOM_DEGENERATE"
    case GeomSplitPointNotOnGeom => "GEOM_SPLIT_POINT_NOT_ON_GEOM"
    case GeomArcRangeInvalid => "GEOM_ARC_RANGE_INVALID"
    case GeomCircleRadiusInvalid => "GEOM_CIRCLE_RADIUS_INVALID"
    case GeomFallbackLimitReached => "GEOM_FALLBACK_LIMIT_REACHED"
    case CoreInvariantViolation => "CORE_INVARIANT_VIOLATION"
    case GeomOffsetSelfIntersection => "GEOM_OFFSET_SELF_INTERSECTION"
    case GeomOffsetNotSupported => "GEOM_OFFSET_NOT_SUPPORTED"
    case GeomTrimNoIntersection => "GEOM_TRIM_NO_INTERSECTION"
    case EditAmbiguousTarget => "EDIT_AMBIGUOUS_TARGET"
    case EditTrimAmbiguousCandidate => "EDIT_TRIM_AMBIGUOUS_CANDIDATE"
    case EditNoSelection => "EDIT_NO_SELECTION"
    case EditTargetLockedOrHidden => "EDIT_TARGET_LOCKED_OR_HIDDEN"
    case EditInvalidNumeric => "EDIT_INVALID_NUMERIC"
    case EditTransformWouldDegenerate => "EDIT_TRANSFORM_WOULD_DEGENERATE"
    case DrawInvalidNumeric => "DRAW_INVALID_NUMERIC"
    case DrawConstraintConflict => "DRAW_CONSTRAINT_CONFLICT"
    case DrawInsufficientInput => "DRAW_INSUFFICIENT_INPUT"
    case EditFilletRadiusTooLarge => "EDIT_FILLET_RADIUS_TOO_LARGE"
    case EditChamferDistanceTooLarge => "EDIT_CHAMFER_DISTANCE_TOO_LARGE"
    case EditMirrorAxisInvalid => "EDIT_MIRROR_AXIS_INVALID"
    case EditPatternInvalidParams => "EDIT_PATTERN_INVALID_PARAMS"
    case EditAmbiguousCandidate => "EDIT_AMBIGUOUS_CANDIDATE"
    case EditCandidateNotFound => "EDIT_CANDIDATE_NOT_FOUND"
    case FaceNoClosedLoop => "FACE_NO_CLOSED_LOOP"
    case FaceSelfIntersection => "FACE_SELF_INTERSECTION"
    case FaceAmbiguousLoop => "FACE_AMBIGUOUS_LOOP"
    case PartInvalidOutline => "PART_INVALID_OUTLINE"
    case PartInvalidFields => "PART_INVALID_FIELDS"
    case MaterialNotFound => "MATERIAL_NOT_FOUND"
    case BomExportFailed => "BOM_EXPORT_FAILED"
    case ExportPdfFailed => "EXPORT_PDF_FAILED"
    case ExportUnsupportedEntity => "EXPORT_UNSUPPORTED_ENTITY"
    case ExportUnsupportedFeature => "EXPORT_UNSUPPORTED_FEATURE"
    case ExportIoParseFailed => "EXPORT_IO_PARSE_FAILED"
    case ExportIoWriteFailed => "EXPORT_IO_WRITE_FAILED"
    case NestPartTooLargeForAnySheet => "NEST_PART_TOO_LARGE_FOR_ANY_SHEET"
    case NestGrainConstraintBlocksFit => "NEST_GRAIN_CONSTRAINT_BLOCKS_FIT"
    case NestNoFeasiblePositionWithMarginAndKerf => "NEST_NO_FEASIBLE_POSITION_" + "WITH_MARGIN_AND_KERF"
    case NestNoGoZoneBlocksFit => "NEST_NO_GO_ZONE_BLOCKS_FIT"
    case NestStoppedByTimeLimit => "NEST_STOPPED_BY_TIME_LIMIT"
    case NestStoppedByIterationLimit => "NEST_STOPPED_BY_ITERATION_LIMIT"
    case NestInternalInfeasible => "NEST_INTERNAL_INFEASIBLE"
  }

  /** Declaration position of a code. */
  function Ordinal(c: ReasonCode): nat
  {
    match c
    case SerializeSchemaValidationFailed => 0
    case SerializePackageCorrupted => 1
    case SerializeUnsupportedSchemaVersion => 2
    case ModelReferenceNotFound => 3
    case GeomInvalidNumeric => 4
    case GeomNoIntersection => 5
    case GeomIntersectionAmbiguous => 6
    case GeomDegenerate => 7
    case GeomSplitPointNotOnGeom => 8
    case GeomArcRangeInvalid => 9
    case GeomCircleRadiusInvalid => 10
    case GeomFallbackLimitReached => 11
    case CoreInvariantViolation => 12
    case GeomOffsetSelfIntersection => 13
    case GeomOffsetNotSupported => 14
    case GeomTrimNoIntersection => 15
    case EditAmbiguousTarget => 16
    case EditTrimAmbiguousCandidate => 17
    case EditNoSelection => 18
    case EditTargetLockedOrHidden => 19
    case EditInvalidNumeric => 20
    case EditTransformWouldDegenerate => 21
    case DrawInvalidNumeric => 22
    case DrawConstraintConflict => 23
    case DrawInsufficientInput => 24
    case EditFilletRadiusTooLarge => 25
    case EditChamferDistanceTooLarge => 26
    case EditMirrorAxisInvalid => 27
    case EditPatternInvalidParams => 28
    case EditAmbiguousCandidate => 29
    case EditCandidateNotFound => 30
    case FaceNoClosedLoop => 31
    case FaceSelfIntersection => 32
    case FaceAmbiguousLoop => 33
    case PartInvalidOutline => 34
    case PartInvalidFields => 35
    case MaterialNotFound => 36
    case BomExportFailed => 37
    case ExportPdfFailed => 38
    case ExportUnsupportedEntity => 39
    case ExportUnsupportedFeature => 40
    case ExportIoParseFailed => 41
    case ExportIoWriteFailed => 42
    case NestPartTooLargeForAnySheet => 43
    case NestGrainConstraintBlocksFit => 44
    case NestNoFeasiblePositionWithMarginAndKerf => 45
    case NestNoGoZoneBlocksFit => 46
    case NestStoppedByTimeLimit => 47
    case NestStoppedByIterationLimit => 48
    case NestInternalInfeasible => 49
  }

  /**
   * The length of a wire name together with its fourth and fourteenth
   * characters already tells the 50 codes apart (a length that only one name
   * has decides alone); this is the inverse used to show that `AsStr` is
   * injective.
   */
  function DecodeKey(n: nat, a: char, b: char): Option<ReasonCode>
  {
    (if n < 26 then
      (if n < 21 then
        (if n < 18 then
          (if n < 17 then
            Some(GeomDegenerate)
          else
            (if a == 'T' && b == 'T' then Some(EditNoSelection) else if a == '_' && b == 'I' then Some(BomExportFailed) else if a == 'O' && b == 'I' then Some(ExportPdfFailed) else None))
        else
          (if n < 19 then
            Some(MaterialNotFound)
          else
            (if n < 20 then
              (if a == 'E' && b == 'D' then Some(FaceNoClosedLoop) else if a == 'E' && b == 'S' then Some(FaceAmbiguousLoop) else if a == 'T' && b == 'F' then Some(PartInvalidFields) else None)
            else
              (if a == 'M' && b == 'N' then Some(GeomInvalidNumeric) else if a == 'M' && b == 'S' then Some(GeomNoIntersection) else if a == 'T' && b == 'N' then Some(EditInvalidNumeric) else if a == 'W' && b == 'N' then Some(DrawInvalidNumeric) else if a == 'T' && b == 'O' then Some(PartInvalidOutline) else None))))
      else
        (if n < 23 then
          (if n < 22 then
            Some(EditAmbiguousTarget)
          else
            (if a == 'M' && b == 'E' then Some(GeomArcRangeInvalid) else if a == 'E' && b == 'E' then Some(FaceSelfIntersection) else if a == 'O' && b == 'S' then Some(ExportIoParseFailed) else if a == 'O' && b == 'T' then Some(ExportIoWriteFailed) else None))
        else
          (if n < 24 then
            Some(DrawInsufficientInput)
          else
            (if n < 25 then
              (if a == 'E' && b == 'T' then Some(CoreInvariantViolation) else if a == 'W' && b == 'N' then Some(DrawConstraintConflict) else if a == 'T' && b == 'X' then Some(EditMirrorAxisInvalid) else if a == 'T' && b == 'S' then Some(EditAmbiguousCandidate) else if a == 'T' && b == 'E' then Some(EditCandidateNotFound) else if a == 'T' && b == '_' then Some(NestInternalInfeasible) else None)
            else
              (if a == 'E' && b == 'C' then Some(ModelReferenceNotFound) else if a == 'M' && b == 'O' then Some(GeomOffsetNotSupported) else if a == 'M' && b == 'I' then Some(GeomTrimNoIntersection) else if a == 'O' && b == 'O' then Some(ExportUnsupportedEntity) else None)))))
    else
      (if n < 32 then
        (if n < 28 then
          (if n < 27 then
            (if a == 'M' && b == 'A' then Some(GeomCircleRadiusInvalid) else if a == 'O' && b == 'O' then Some(ExportUnsupportedFeature) else if a == 'T' && b == 'N' then Some(NestNoGoZoneBlocksFit) else if a == 'T' && b == 'B' then Some(NestStoppedByTimeLimit) else None)
          else
            (if a == 'I' && b == 'K' then Some(SerializePackageCorrupted) else if a == 'M' && b == 'T' then Some(GeomIntersectionAmbiguous) else if a == 'M' && b == '_' then Some(GeomFallbackLimitReached) else if a == 'T' && b == 'I' then Some(EditPatternInvalidParams) else None))
        else
          (if n < 29 then
            (if a == 'M' && b == 'I' then Some(GeomSplitPointNotOnGeom) else if a == 'T' && b == 'O' then Some(EditTargetLockedOrHidden) else if a == 'T' && b == 'A' then Some(EditFilletRadiusTooLarge) else None)
          else
            (if n < 31 then
              (if a == 'M' && b == 'E' then Some(GeomOffsetSelfIntersection) else if a == 'T' && b == 'I' then Some(EditTrimAmbiguousCandidate) else None)
            else
              (if a == 'T' && b == 'M' then Some(EditTransformWouldDegenerate) else if a == 'T' && b == 'D' then Some(EditChamferDistanceTooLarge) else if a == 'T' && b == 'B' then Some(NestStoppedByIterationLimit) else None))))
      else
        (if n < 34 then
          (if n < 33 then
            Some(NestGrainConstraintBlocksFit)
          else
            Some(NestPartTooLargeForAnySheet))
        else
          (if n < 36 then
            Some(SerializeSchemaValidationFailed)
          else
            (if n < 46 then
              Some(SerializeUnsupportedSchemaVersion)
            else
              Some(NestNoFeasiblePositionWithMarginAndKerf))))))
  }

  /** The key of a code's wire name recovers the code. */
  predicate KeyDecodes(c: ReasonCode)
  {
    |AsStr(c)| > 13 && DecodeKey(|AsStr(c)|, AsStr(c)[3], AsStr(c)[13]) == Some(c)
  }

  lemma KeysDecode0()
    ensures KeyDecodes(SerializeSchemaValidationFailed)
    ensures KeyDecodes(SerializePackageCorrupted)
  {
  }

  lemma KeysDecode1()
    ensures KeyDecodes(SerializeUnsupportedSchemaVersion)
    ensures KeyDecodes(ModelReferenceNotFound)
  {
  }

  lemma KeysDecode2()
    ensures KeyDecodes(GeomInvalidNumeric)
    ensures KeyDecodes(GeomNoIntersection)
  {
  }

  lemma KeysDecode3()
    ensures KeyDecodes(GeomIntersectionAmbiguous)
    ensures KeyDecodes(GeomDegenerate)
  {
  }

  lemma KeysDecode4()
    ensures KeyDecodes(GeomSplitPointNotOnGeom)
    ensures KeyDecodes(GeomArcRangeInvalid)
  {
  }

  lemma KeysDecode5()
    ensures KeyDecodes(GeomCircleRadiusInvalid)
    ensures KeyDecodes(GeomFallbackLimitReached)
  {
  }

  lemma KeysDecode6()
    ensures KeyDecodes(CoreInvariantViolation)
    ensures KeyDecodes(GeomOffsetSelfIntersection)
  {
  }

  lemma KeysDecode7()
    ensures KeyDecodes(GeomOffsetNotSupported)
    ensures KeyDecodes(GeomTrimNoIntersection)
  {
  }

  lemma KeysDecode8()
    ensures KeyDecodes(EditAmbiguousTarget)
    ensures KeyDecodes(EditTrimAmbiguousCandidate)
  {
  }

  lemma KeysDecode9()
    ensures KeyDecodes(EditNoSelection)
    ensures KeyDecodes(EditTargetLockedOrHidden)
  {
  }

  lemma KeysDecode10()
    ensures KeyDecodes(EditInvalidNumeric)
    ensures KeyDecodes(EditTransformWouldDegenerate)
  {
  }

  lemma KeysDecode11()
    ensures KeyDecodes(DrawInvalidNumeric)
    ensures KeyDecodes(DrawConstraintConflict)
  {
  }

  lemma KeysDecode12()
    ensures KeyDecodes(DrawInsufficientInput)
    ensures KeyDecodes(EditFilletRadiusTooLarge)
  {
  }

  lemma KeysDecode13()
    ensures KeyDecodes(EditChamferDistanceTooLarge)
    ensures KeyDecodes(EditMirrorAxisInvalid)
  {
  }

  lemma KeysDecode14()
    ensures KeyDecodes(EditPatternInvalidParams)
    ensures KeyDecodes(EditAmbiguousCandidate)
  {
  }

  lemma KeysDecode15()
    ensures KeyDecodes(EditCandidateNotFound)
    ensures KeyDecodes(FaceNoClosedLoop)
  {
  }

  lemma KeysDecode16()
    ensures KeyDecodes(FaceSelfIntersection)
    ensures KeyDecodes(FaceAmbiguousLoop)
  {
  }

  lemma KeysDecode17()
    ensures KeyDecodes(PartInvalidOutline)
    ensures KeyDecodes(PartInvalidFields)
  {
  }

  lemma KeysDecode18()
    ensures KeyDecodes(MaterialNotFound)
    ensures KeyDecodes(BomExportFailed)
  {
  }

  lemma KeysDecode19()
    ensures KeyDecodes(ExportPdfFailed)
    ensures KeyDecodes(ExportUnsupportedEntity)
  {
  }

  lemma KeysDecode20()
    ensures KeyDecodes(ExportUnsupportedFeature)
    ensures KeyDecodes(ExportIoParseFailed)
  {
  }

  lemma KeysDecode21()
    ensures KeyDecodes(ExportIoWriteFailed)
    ensures KeyDecodes(NestPartTooLargeForAnySheet)
  {
  }

  lemma KeysDecode22()
    ensures KeyDecodes(NestNoFeasiblePositionWithMarginAndKerf)
  {
  }

  lemma KeysDecode23()
    ensures KeyDecodes(NestGrainConstraintBlocksFit)
    ensures KeyDecodes(NestNoGoZoneBlocksFit)
  {
  }

  lemma KeysDecode24()
    ensures KeyDecodes(NestStoppedByTimeLimit)
    ensures KeyDecodes(NestStoppedByIterationLimit)
  {
  }

  lemma KeysDecode25()
    ensures KeyDecodes(NestInternalInfeasible)
  {
    var s := AsStr(NestInternalInfeasible);
    assert |s| == 24;
    assert s[3] == 'T' && s[13] == '_';
  }

  lemma {:induction false} NameKeyDecodes(c: ReasonCode)
    ensures KeyDecodes(c)
  {
    match c
    case SerializeSchemaValidationFailed => KeysDecode0();
    case SerializePackageCorrupted => KeysDecode0();
    case SerializeUnsupportedSchemaVersion => KeysDecode1();
    case ModelReferenceNotFound => KeysDecode1();
    case GeomInvalidNumeric => KeysDecode2();
    case GeomNoIntersection => KeysDecode2();
    case GeomIntersectionAmbiguous => KeysDecode3();
    case GeomDegenerate => KeysDecode3();
    case GeomSplitPointNotOnGeom => KeysDecode4();
    case GeomArcRangeInvalid => KeysDecode4();
    case GeomCircleRadiusInvalid => KeysDecode5();
    case GeomFallbackLimitReached => KeysDecode5();
    case CoreInvariantViolation => KeysDecode6();
    case GeomOffsetSelfIntersection => KeysDecode6();
    case GeomOffsetNotSupported => KeysDecode7();
    case GeomTrimNoIntersection => KeysDecode7();
    case EditAmbiguousTarget => KeysDecode8();
    case EditTrimAmbiguousCandidate => KeysDecode8();
    case EditNoSelection => KeysDecode9();
    case EditTargetLockedOrHidden => KeysDecode9();
    case EditInvalidNumeric => KeysDecode10();
    case EditTransformWouldDegenerate => KeysDecode10();
    case DrawInvalidNumeric => KeysDecode11();
    case DrawConstraintConflict => KeysDecode11();
    case DrawInsufficientInput => KeysDecode12();
    case EditFilletRadiusTooLarge => KeysDecode12();
    case EditChamferDistanceTooLarge => KeysDecode13();
    case EditMirrorAxisInvalid => KeysDecode13();
    case EditPatternInvalidParams => KeysDecode14();
    case EditAmbiguousCandidate => KeysDecode14();
    case EditCandidateNotFound => KeysDecode15();
    case FaceNoClosedLoop => KeysDecode15();
    case FaceSelfIntersection => KeysDecode16();
    case FaceAmbiguousLoop => KeysDecode16();
    case PartInvalidOutline => KeysDecode17();
    case PartInvalidFields => KeysDecode17();
    case MaterialNotFound => KeysDecode18();
    case BomExportFailed => KeysDecode18();
    case ExportPdfFailed => KeysDecode19();
    case ExportUnsupportedEntity => KeysDecode19();
    case ExportUnsupportedFeature => KeysDecode20();
    case ExportIoParseFailed => KeysDecode20();
    case ExportIoWriteFailed => KeysDecode21();
    case NestPartTooLargeForAnySheet => KeysDecode21();
    case NestGrainConstraintBlocksFit => KeysDecode23();
    case NestNoFeasiblePositionWithMarginAndKerf => KeysDecode22();
    case NestNoGoZoneBlocksFit => KeysDecode23();
    case NestStoppedByTimeLimit => KeysDecode24();
    case NestStoppedByIterationLimit => KeysDecode24();
    case NestInternalInfeasible => KeysDecode25();
  }

  /** An upper-case ASCII letter, a decimal digit or an underscore. */
  predicate UpperSnakeChar(ch: char)
  {
    ('A' <= ch <= 'Z') || ('0' <= ch <= '9') || ch == '_'
  }

  /** The characters an UPPER_SNAKE_CASE name may use. */
  const SNAKE_CHARS: string := "ABCDEFGHIJKLMNOPQRSTUVWXYZ0123456789_"

  lemma UpperSnakeIsListed(ch: char)
    requires UpperSnakeChar(ch)
    ensures ch in SNAKE_CHARS
  {
  }

  /** A non-empty UPPER_SNAKE_CASE name. */
  predicate UpperSnake(s: string)
  {
    |s| > 0 && forall k :: 0 <= k < |s| ==> UpperSnakeChar(s[k])
  }

  // One lemma per code, then five groups of ten in declaration order: each
  // wire name is UPPER_SNAKE_CASE.

  lemma UpperSnakeSerializeSchemaValidationFailed() ensures UpperSnake(AsStr(SerializeSchemaValidationFailed)) { }
  lemma UpperSnakeSerializePackageCorrupted() ensures UpperSnake(AsStr(SerializePackageCorrupted)) { }
  lemma UpperSnakeSerializeUnsupportedSchemaVersion() ensures UpperSnake(AsStr(SerializeUnsupportedSchemaVersion)) { }
  lemma UpperSnakeModelReferenceNotFound() ensures UpperSnake(AsStr(ModelReferenceNotFound)) { }
  lemma UpperSnakeGeomInvalidNumeric() ensures UpperSnake(AsStr(GeomInvalidNumeric)) { }
  lemma UpperSnakeGeomNoIntersection() ensures UpperSnake(AsStr(GeomNoIntersection)) { }
  lemma UpperSnakeGeomIntersectionAmbiguous() ensures UpperSnake(AsStr(GeomIntersectionAmbiguous)) { }
  lemma UpperSnakeGeomDegenerate() ensures UpperSnake(AsStr(GeomDegenerate)) { }
  lemma UpperSnakeGeomSplitPointNotOnGeom() ensures UpperSnake(AsStr(GeomSplitPointNotOnGeom)) { }
  lemma UpperSnakeGeomArcRangeInvalid() ensures UpperSnake(AsStr(GeomArcRangeInvalid)) { }
  lemma UpperSnakeGeomCircleRadiusInvalid() ensures UpperSnake(AsStr(GeomCircleRadiusInvalid)) { }
  lemma UpperSnakeGeomFallbackLimitReached() ensures UpperSnake(AsStr(GeomFallbackLimitReached)) { }
  lemma UpperSnakeCoreInvariantViolation() ensures UpperSnake(AsStr(CoreInvariantViolation)) { }
  lemma UpperSnakeGeomOffsetSelfIntersection() ensures UpperSnake(AsStr(GeomOffsetSelfIntersection)) { }
  lemma UpperSnakeGeomOffsetNotSupported() ensures UpperSnake(AsStr(GeomOffsetNotSupported)) { }
  lemma UpperSnakeGeomTrimNoIntersection() ensures UpperSnake(AsStr(GeomTrimNoIntersection)) { }
  lemma UpperSnakeEditAmbiguousTarget() ensures UpperSnake(AsStr(EditAmbiguousTarget)) { }
  lemma UpperSnakeEditTrimAmbiguousCandidate() ensures UpperSnake(AsStr(EditTrimAmbiguousCandidate)) { }
  lemma UpperSnakeEditNoSelection() ensures UpperSnake(AsStr(EditNoSelection)) { }
  lemma UpperSnakeEditTargetLockedOrHidden() ensures UpperSnake(AsStr(EditTargetLockedOrHidden)) { }
  lemma UpperSnakeEditInvalidNumeric() ensures UpperSnake(AsStr(EditInvalidNumeric)) { }
  lemma UpperSnakeEditTransformWouldDegenerate() ensures UpperSnake(AsStr(EditTransformWouldDegenerate)) { }
  lemma UpperSnakeDrawInvalidNumeric() ensures UpperSnake(AsStr(DrawInvalidNumeric)) { }
  lemma UpperSnakeDrawConstraintConflict() ensures UpperSnake(AsStr(DrawConstraintConflict)) { }
  lemma UpperSnakeDrawInsufficientInput() ensures UpperSnake(AsStr(DrawInsufficientInput)) { }
  lemma UpperSnakeEditFilletRadiusTooLarge() ensures UpperSnake(AsStr(EditFilletRadiusTooLarge)) { }
  lemma UpperSnakeEditChamferDistanceTooLarge() ensures UpperSnake(AsStr(EditChamferDistanceTooLarge)) { }
  lemma UpperSnakeEditMirrorAxisInvalid() ensures UpperSnake(AsStr(EditMirrorAxisInvalid)) { }
  lemma UpperSnakeEditPatternInvalidParams() ensures UpperSnake(AsStr(EditPatternInvalidParams)) { }
  lemma UpperSnakeEditAmbiguousCandidate() ensures UpperSnake(AsStr(EditAmbiguousCandidate)) { }
  lemma UpperSnakeEditCandidateNotFound() ensures UpperSnake(AsStr(EditCandidateNotFound)) { }
  lemma UpperSnakeFaceNoClosedLoop() ensures UpperSnake(AsStr(FaceNoClosedLoop)) { }
  lemma UpperSnakeFaceSelfIntersection() ensures UpperSnake(AsStr(FaceSelfIntersection)) { }
  lemma UpperSnakeFaceAmbiguousLoop() ensures UpperSnake(AsStr(FaceAmbiguousLoop)) { }
  lemma UpperSnakePartInvalidOutline() ensures UpperSnake(AsStr(PartInvalidOutline)) { }
  lemma UpperSnakePartInvalidFields() ensures UpperSnake(AsStr(PartInvalidFields)) { }
  lemma UpperSnakeMaterialNotFound() ensures UpperSnake(AsStr(MaterialNotFound)) { }
  lemma UpperSnakeBomExportFailed() ensures UpperSnake(AsStr(BomExportFailed)) { }
  lemma UpperSnakeExportPdfFailed() ensures UpperSnake(AsStr(ExportPdfFailed)) { }
  lemma UpperSnakeExportUnsupportedEntity() ensures UpperSnake(AsStr(ExportUnsupportedEntity)) { }
  lemma UpperSnakeExportUnsupportedFeature() ensures UpperSnake(AsStr(ExportUnsupportedFeature)) { }
  lemma UpperSnakeExportIoParseFailed() ensures UpperSnake(AsStr(ExportIoParseFailed)) { }
  lemma UpperSnakeExportIoWriteFailed() ensures UpperSnake(AsStr(ExportIoWriteFailed)) { }
  lemma UpperSnakeNestPartTooLargeForAnySheet() ensures UpperSnake(AsStr(NestPartTooLargeForAnySheet)) { }
  lemma UpperSnakeNestGrainConstraintBlocksFit() ensures UpperSnake(AsStr(NestGrainConstraintBlocksFit)) { }
  lemma UpperSnakeNestNoFeasiblePositionWithMarginAndKerf() ensures UpperSnake(AsStr(NestNoFeasiblePositionWithMarginAndKerf)) { }
  lemma UpperSnakeNestNoGoZoneBlocksFit() ensures UpperSnake(AsStr(NestNoGoZoneBlocksFit)) { }
  lemma UpperSnakeNestStoppedByTimeLimit() ensures UpperSnake(AsStr(NestStoppedByTimeLimit)) { }
  lemma UpperSnakeNestStoppedByIterationLimit() ensures UpperSnake(AsStr(NestStoppedByIterationLimit)) { }
  lemma UpperSnakeNestInternalInfeasible() ensures UpperSnake(AsStr(NestInternalInfeasible)) { }

  lemma AsStrIsUpperSnake0(c: ReasonCode)
    requires c.SerializeSchemaValidationFailed? || c.SerializePackageCorrupted? || c.SerializeUnsupportedSchemaVersion? || c.ModelReferenceNotFound? || c.GeomInvalidNumeric? || c.GeomNoIntersection? || c.GeomIntersectionAmbiguous? || c.GeomDegenerate? || c.GeomSplitPointNotOnGeom? || c.GeomArcRangeInvalid?
    ensures UpperSnake(AsStr(c))
  {
    match c
    case SerializeSchemaValidationFailed => UpperSnakeSerializeSchemaValidationFailed();
    case SerializePackageCorrupted => UpperSnakeSerializePackageCorrupted();
    case SerializeUnsupportedSchemaVersion => UpperSnakeSerializeUnsupportedSchemaVersion();
    case ModelReferenceNotFound => UpperSnakeModelReferenceNotFound();
    case GeomInvalidNumeric => UpperSnakeGeomInvalidNumeric();
    case GeomNoIntersection => UpperSnakeGeomNoIntersection();
    case GeomIntersectionAmbiguous => UpperSnakeGeomIntersectionAmbiguous();
    case GeomDegenerate => UpperSnakeGeomDegenerate();
    case GeomSplitPointNotOnGeom => UpperSnakeGeomSplitPointNotOnGeom();
    case GeomArcRangeInvalid => UpperSnakeGeomArcRangeInvalid();
  }

  lemma AsStrIsUpperSnake1(c: ReasonCode)
    requires c.GeomCircleRadiusInvalid? || c.GeomFallbackLimitReached? || c.CoreInvariantViolation? || c.GeomOffsetSelfIntersection? || c.GeomOffsetNotSupported? || c.GeomTrimNoIntersection? || c.EditAmbiguousTarget? || c.EditTrimAmbiguousCandidate? || c.EditNoSelection? || c.EditTargetLockedOrHidden?
    ensures UpperSnake(AsStr(c))
  {
    match c
    case GeomCircleRadiusInvalid => UpperSnakeGeomCircleRadiusInvalid();
    case GeomFallbackLimitReached => UpperSnakeGeomFallbackLimitReached();
    case CoreInvariantViolation => UpperSnakeCoreInvariantViolation();
    case GeomOffsetSelfIntersection => UpperSnakeGeomOffsetSelfIntersection();
    case GeomOffsetNotSupported => UpperSnakeGeomOffsetNotSupported();
    case GeomTrimNoIntersection => UpperSnakeGeomTrimNoIntersection();
    case EditAmbiguousTarget => UpperSnakeEditAmbiguousTarget();
    case EditTrimAmbiguousCandidate => UpperSnakeEditTrimAmbiguousCandidate();
    case EditNoSelection => UpperSnakeEditNoSelection();
    case EditTargetLockedOrHidden => UpperSnakeEditTargetLockedOrHidden();
  }

  lemma AsStrIsUpperSnake2(c: ReasonCode)
    requires c.EditInvalidNumeric? || c.EditTransformWouldDegenerate? || c.DrawInvalidNumeric? || c.DrawConstraintConflict? || c.DrawInsufficientInput? || c.EditFilletRadiusTooLarge? || c.EditChamferDistanceTooLarge? || c.EditMirrorAxisInvalid? || c.EditPatternInvalidParams? || c.EditAmbiguousCandidate?
    ensures UpperSnake(AsStr(c))
  {
    match c
    case EditInvalidNumeric => UpperSnakeEditInvalidNumeric();
    case EditTransformWouldDegenerate => UpperSnakeEditTransformWouldDegenerate();
    case DrawInvalidNumeric => UpperSnakeDrawInvalidNumeric();
    case DrawConstraintConflict => UpperSnakeDrawConstraintConflict();
    case DrawInsufficientInput => UpperSnakeDrawInsufficientInput();
    case EditFilletRadiusTooLarge => UpperSnakeEditFilletRadiusTooLarge();
    case EditChamferDistanceTooLarge => UpperSnakeEditChamferDistanceTooLarge();
    case EditMirrorAxisInvalid => UpperSnakeEditMirrorAxisInvalid();
    case EditPatternInvalidParams => UpperSnakeEditPatternInvalidParams();
    case EditAmbiguousCandidate => UpperSnakeEditAmbiguousCandidate();
  }

  lemma AsStrIsUpperSnake3(c: ReasonCode)
    requires c.EditCandidateNotFound? || c.FaceNoClosedLoop? || c.FaceSelfIntersection? || c.FaceAmbiguousLoop? || c.PartInvalidOutline? || c.PartInvalidFields? || c.MaterialNotFound? || c.BomExportFailed? || c.ExportPdfFailed? || c.ExportUnsupportedEntity?
    ensures UpperSnake(AsStr(c))
  {
    match c
    case EditCandidateNotFound => UpperSnakeEditCandidateNotFound();
    case FaceNoClosedLoop => UpperSnakeFaceNoClosedLoop();
    case FaceSelfIntersection => UpperSnakeFaceSelfIntersection();
    case FaceAmbiguousLoop => UpperSnakeFaceAmbiguousLoop();
    case PartInvalidOutline => UpperSnakePartInvalidOutline();
    case PartInvalidFields => UpperSnakePartInvalidFields();
    case MaterialNotFound => UpperSnakeMaterialNotFound();
    case BomExportFailed => UpperSnakeBomExportFailed();
    case ExportPdfFailed => UpperSnakeExportPdfFailed();
    case ExportUnsupportedEntity => UpperSnakeExportUnsupportedEntity();
  }

  lemma AsStrIsUpperSnake4(c: ReasonCode)
    requires c.ExportUnsupportedFeature? || c.ExportIoParseFailed? || c.ExportIoWriteFailed? || c.NestPartTooLargeForAnySheet? || c.NestGrainConstraintBlocksFit? || c.NestNoFeasiblePositionWithMarginAndKerf? || c.NestNoGoZoneBlocksFit? || c.NestStoppedByTimeLimit? || c.NestStoppedByIterationLimit? || c.NestInternalInfeasible?
    ensures UpperSnake(AsStr(c))
  {
    match c
    case ExportUnsupportedFeature => UpperSnakeExportUnsupportedFeature();
    case ExportIoParseFailed => UpperSnakeExportIoParseFailed();
    case ExportIoWriteFailed => UpperSnakeExportIoWriteFailed();
    case NestPartTooLargeForAnySheet => UpperSnakeNestPartTooLargeForAnySheet();
    case NestGrainConstraintBlocksFit => UpperSnakeNestGrainConstraintBlocksFit();
    case NestNoFeasiblePositionWithMarginAndKerf => UpperSnakeNestNoFeasiblePositionWithMarginAndKerf();
    case NestNoGoZoneBlocksFit => UpperSnakeNestNoGoZoneBlocksFit();
    case NestStoppedByTimeLimit => UpperSnakeNestStoppedByTimeLimit();
    case NestStoppedByIterationLimit => UpperSnakeNestStoppedByIterationLimit();
    case NestInternalInfeasible => UpperSnakeNestInternalInfeasible();
  }

  lemma AsStrIsUpperSnake(c: ReasonCode)
    ensures UpperSnake(AsStr(c))
  {
    match c
    case SerializeSchemaValidationFailed
      | SerializePackageCorrupted
      | SerializeUnsupportedSchemaVersion
      | ModelReferenceNotFound
      | GeomInvalidNumeric
      | GeomNoIntersection
      | GeomIntersectionAmbiguous
      | GeomDegenerate
      | GeomSplitPointNotOnGeom
      | GeomArcRangeInvalid => AsStrIsUpperSnake0(c);
    case GeomCircleRadiusInvalid
      | GeomFallbackLimitReached
      | CoreInvariantViolation
      | GeomOffsetSelfIntersection
      | GeomOffsetNotSupported
      | GeomTrimNoIntersection
      | EditAmbiguousTarget
      | EditTrimAmbiguousCandidate
      | EditNoSelection
      | EditTargetLockedOrHidden => AsStrIsUpperSnake1(c);
    case EditInvalidNumeric
      | EditTransformWouldDegenerate
      | DrawInvalidNumeric
      | DrawConstraintConflict
      | DrawInsufficientInput
      | EditFilletRadiusTooLarge
      | EditChamferDistanceTooLarge
      | EditMirrorAxisInvalid
      | EditPatternInvalidParams
      | EditAmbiguousCandidate => AsStrIsUpperSnake2(c);
    case EditCandidateNotFound
      | FaceNoClosedLoop
      | FaceSelfIntersection
      | FaceAmbiguousLoop
      | PartInvalidOutline
      | PartInvalidFields
      | MaterialNotFound
      | BomExportFailed
      | ExportPdfFailed
      | ExportUnsupportedEntity => AsStrIsUpperSnake3(c);
    case ExportUnsupportedFeature
      | ExportIoParseFailed
      | ExportIoWriteFailed
      | NestPartTooLargeForAnySheet
      | NestGrainConstraintBlocksFit
      | NestNoFeasiblePositionWithMarginAndKerf
      | NestNoGoZoneBlocksFit
      | NestStoppedByTimeLimit
      | NestStoppedByIterationLimit
      | NestInternalInfeasible => AsStrIsUpperSnake4(c);
  }

  /** Every wire name is a non-empty UPPER_SNAKE_CASE string. */
  lemma AsStrUpperSnake(c: ReasonCode)
    ensures |AsStr(c)| > 0
    ensures forall k :: 0 <= k < |AsStr(c)| ==> UpperSnakeChar(AsStr(c)[k])
    ensures forall k :: 0 <= k < |AsStr(c)| ==> AsStr(c)[k] in SNAKE_CHARS
  {
    AsStrIsUpperSnake(c);
    forall k | 0 <= k < |AsStr(c)|
      ensures AsStr(c)[k] in SNAKE_CHARS
    {
      UpperSnakeIsListed(AsStr(c)[k]);
    }
  }

  /** Distinct codes have distinct wire names. */
  lemma {:induction false} AsStrInjective(a: ReasonCode, b: ReasonCode)
    ensures AsStr(a) == AsStr(b) ==> a == b
  {
    NameKeyDecodes(a);
    NameKeyDecodes(b);
    assert DecodeKey(|AsStr(a)|, AsStr(a)[3], AsStr(a)[13]) == Some(a);
  }

  /** A failure: a code plus named parameters for the message and debug details. */
  datatype Reason = Reason(code: string, params: seq<Member>, debug: seq<Member>)

  function FromCode(c: ReasonCode): (r: Reason)
    ensures r.code == AsStr(c) && r.params == [] && r.debug == []
  {
    Reason(AsStr(c), [], [])
  }

  /** Sets one parameter, overwriting an earlier value under the same key. */
  function WithParam(r: Reason, k: string, v: Json): (out: Reason)
    ensures Get(out.params, k) == Some(v)
    ensures forall k' :: k' != k ==> Get(out.params, k') == Get(r.params, k')
    ensures UniqueKeys(r.params) ==> UniqueKeys(out.params)
    ensures out.code == r.code && out.debug == r.debug
  {
    r.(params := Put(r.params, k, v))
  }

  /** Sets one debug entry, overwriting an earlier value under the same key. */
  function WithDebug(r: Reason, k: string, v: Json): (out: Reason)
    ensures Get(out.debug, k) == Some(v)
    ensures forall k' :: k' != k ==> Get(out.debug, k') == Get(r.debug, k')
    ensures UniqueKeys(r.debug) ==> UniqueKeys(out.debug)
    ensures out.code == r.code && out.params == r.params
  {
    r.(debug := Put(r.debug, k, v))
  }

  /**
   * Adds `"materials": []` and `"settings": {}` to a document object that
   * lacks them; other values pass through.
   */
  function NormalizeDocumentJson(v: Json): (r: Json)
    ensures !v.JObj? ==> r == v
    ensures v.JObj? ==> r.JObj?
    ensures v.JObj? ==> (Get(r.members, "materials") ==
      if HasKey(v.members, "materials") then Get(v.members, "materials") else Some(JArr([])))
    ensures v.JObj? ==> (Get(r.members, "settings") ==
      if HasKey(v.members, "settings") then Get(v.members, "settings") else Some(JObj([])))
    ensures v.JObj? ==> forall k :: k != "materials" && k != "settings" ==> Get(r.members, k) == Get(v.members, k)
  {
    if v.JObj? then
      var m1 := if HasKey(v.members, "materials") then v.members else Put(v.members, "materials", JArr([]));
      var m2 := if HasKey(m1, "settings") then m1 else Put(m1, "settings", JObj([]));
      JObj(m2)
    else v
  }

  lemma {:induction false} NormalizeIdempotent(v: Json)
    ensures NormalizeDocumentJson(NormalizeDocumentJson(v)) == NormalizeDocumentJson(v)
  {
    var n := NormalizeDocumentJson(v);
    if v.JObj? {
      assert HasKey(n.members, "materials") && HasKey(n.members, "settings");
    }
  }
}
