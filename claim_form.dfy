/** The complaint form `ClaimForm`: its component state (one field per `useState`
    hook) and the handlers that update it. Each handler is one atomic transition.
    The two calls to the remote service are parameters: the lookup's outcome and
    the complaint post's outcome. Each network handler returns the requests it
    issued, in order, so that "no request was sent" can be stated. */
module ReclamationForm {
  import opened Validation
  import opened EventOrder

  datatype Severity = Success | Error

  /** The four options of the reason selector; `ColisEndommage` is the default. */
  datatype Reason = ColisEndommage | RetardLivraison | ComportementLivreur | Autre

  /** `colisDetails`: the empty object `{}`, or the lookup response with its events sorted. */
  datatype ColisDetails = NoDetails | Tracked(evenements: seq<Event>)

  /** What the tracking lookup (`GET tracking_position_STG`) produced:
      the literal string 'inexistant'; a response carrying an `evenements` array
      of events with string dates; any other response on which the sort throws
      (no `evenements` array, `.localeCompare` read from a non-string `a.date`,
      or `.date` read from a null event); or a thrown error. */
  datatype LookupOutcome =
    | Inexistant
    | Found(evenements: seq<Event>)
    | FoundUnsortable
    | LookupThrows
  {
    /** The service answered with something other than 'inexistant'. */
    predicate Answered() {
      Found? || FoundUnsortable?
    }
  }

  /** What the complaint post (`POST add_reclamation_STG`) produced. */
  datatype PostOutcome = PostOk | PostThrows

  /** The posted complaint body `{POSBARCODE, POSPORTABLE, REC_OBJET, REC_DESC, REC_MOTIF}`. */
  datatype ClaimData = ClaimData(
    posBarcode: string,
    posPortable: string,
    recObjet: string,
    recDesc: string,
    recMotif: Reason)

  /** A request sent to the remote service. */
  datatype Request =
    | TrackingGet(barcode: string, phone: string)
    | ClaimPost(payload: ClaimData)

  /** The draft every successful submission goes back to. */
  const EmptyDraft := ClaimData("", "", "", "", ColisEndommage)

  const FormatErrorMessage :=
    "Le numéro de colis doit contenir 12 chiffres exactement et le numéro de téléphone doit contenir 8 chiffres exactement. Veuillez vérifier les valeurs."
  const InvalidParcelMessage :=
    "Le numéro de colis ou le numéro de téléphone est invalide. Veuillez vérifier les valeurs."
  const SuccessMessage := "Réclamation envoyée avec succès."
  const SendFailureMessage :=
    "Une erreur s'est produite lors de l'envoi de la réclamation. Veuillez réessayer plus tard."

  /** Both identifiers have the format the remote service expects. */
  predicate FormatOk(barcode: string, phone: string) {
    ValidatePhoneNumber(phone) && ValidateColisBarcode(barcode)
  }

  class ClaimForm {
    var colisDetails: ColisDetails
    var colisBarcode: string
    var phoneNumber: string
    var claimObject: string
    var claimDescription: string
    var claimReason: Reason
    var isSubmitting: bool
    var alertMessage: string
    var alertSeverity: Severity

    /** The five draft fields, as they would be posted. */
    function Draft(): (d: ClaimData)
      reads this
    {
      ClaimData(colisBarcode, phoneNumber, claimObject, claimDescription, claimReason)
    }

    /** The invariant the keystroke filters keep: the barcode is at most twelve digits
        and the phone number at most eight. */
    predicate WithinFilters()
      reads this
    {
      AcceptsBarcodeInput(colisBarcode) && AcceptsPhoneInput(phoneNumber)
    }

    /** The initial values of the `useState` hooks. */
    constructor ()
      ensures colisDetails == NoDetails && Draft() == EmptyDraft
      ensures !isSubmitting && alertMessage == "" && alertSeverity == Success
      ensures WithinFilters()
    {
      colisDetails := NoDetails;
      colisBarcode := "";
      phoneNumber := "";
      claimObject := "";
      claimDescription := "";
      claimReason := ColisEndommage;
      isSubmitting := false;
      alertMessage := "";
      alertSeverity := Success;
    }

    /** `onChange` of the barcode field: the edit is kept only if it is zero to twelve digits. */
    method OnBarcodeChange(value: string)
      modifies this`colisBarcode
      ensures AcceptsBarcodeInput(value) ==> colisBarcode == value
      ensures !AcceptsBarcodeInput(value) ==> colisBarcode == old(colisBarcode)
      ensures old(WithinFilters()) ==> WithinFilters()
    {
      if AcceptsBarcodeInput(value) {
        colisBarcode := value;
      }
    }

    /** `onChange` of the phone field: the edit is kept only if it is zero to eight digits. */
    method OnPhoneChange(value: string)
      modifies this`phoneNumber
      ensures AcceptsPhoneInput(value) ==> phoneNumber == value
      ensures !AcceptsPhoneInput(value) ==> phoneNumber == old(phoneNumber)
      ensures old(WithinFilters()) ==> WithinFilters()
    {
      if AcceptsPhoneInput(value) {
        phoneNumber := value;
      }
    }

    /** `onChange` of the subject field: any text is stored. */
    method OnObjectChange(value: string)
      modifies this`claimObject
      ensures claimObject == value
      ensures old(WithinFilters()) ==> WithinFilters()
    {
      claimObject := value;
    }

    /** `onChange` of the description field: any text is stored. */
    method OnDescriptionChange(value: string)
      modifies this`claimDescription
      ensures claimDescription == value
      ensures old(WithinFilters()) ==> WithinFilters()
    {
      claimDescription := value;
    }

    /** `onChange` of the reason selector. */
    method OnReasonChange(value: Reason)
      modifies this`claimReason
      ensures claimReason == value
      ensures old(WithinFilters()) ==> WithinFilters()
    {
      claimReason := value;
    }

    /** `fetchColisDetails`: validate, look the parcel up and store its events,
        sorted stably by date, in `colisDetails`. A thrown error, including the one
        raised while sorting a response that cannot be sorted, is only logged:
        nothing changes. */
    method FetchColisDetails(lookup: LookupOutcome) returns (calls: seq<Request>)
      modifies this`colisDetails, this`alertMessage, this`alertSeverity
      ensures !FormatOk(colisBarcode, phoneNumber) ==>
        calls == [] && colisDetails == old(colisDetails)
        && alertMessage == FormatErrorMessage && alertSeverity == Error
      ensures FormatOk(colisBarcode, phoneNumber) ==>
        calls == [TrackingGet(colisBarcode, phoneNumber)]
      ensures FormatOk(colisBarcode, phoneNumber) && lookup.Inexistant? ==>
        colisDetails == NoDetails && alertMessage == InvalidParcelMessage && alertSeverity == Error
      ensures FormatOk(colisBarcode, phoneNumber) && lookup.Found? ==>
        colisDetails.Tracked?
        && SortedByDate(colisDetails.evenements)
        && multiset(colisDetails.evenements) == multiset(lookup.evenements)
        && KeepsDateOrder(lookup.evenements, colisDetails.evenements)
        && alertMessage == SuccessMessage && alertSeverity == Success
      ensures FormatOk(colisBarcode, phoneNumber) && (lookup.FoundUnsortable? || lookup.LookupThrows?) ==>
        colisDetails == old(colisDetails)
        && alertMessage == old(alertMessage) && alertSeverity == old(alertSeverity)
    {
      if !ValidatePhoneNumber(phoneNumber) || !ValidateColisBarcode(colisBarcode) {
        alertMessage := FormatErrorMessage;
        alertSeverity := Error;
        return [];
      }
      calls := [TrackingGet(colisBarcode, phoneNumber)];
      match lookup
      case Inexistant =>
        colisDetails := NoDetails;
        alertMessage := InvalidParcelMessage;
        alertSeverity := Error;
      case Found(evenements) =>
        var events := new Event[|evenements|](k requires 0 <= k < |evenements| => evenements[k]);
        assert events[..] == evenements;
        SortByDate(events);
        colisDetails := Tracked(events[..]);
        alertMessage := SuccessMessage;
        alertSeverity := Success;
      case FoundUnsortable =>
      case LookupThrows =>
    }

    /** `handleFormSubmit`: validate, look the parcel up, post the complaint.
        Every path ends with `isSubmitting` false; the draft is cleared only
        after a successful post. */
    method HandleFormSubmit(lookup: LookupOutcome, post: PostOutcome) returns (calls: seq<Request>)
      modifies this`colisBarcode, this`phoneNumber, this`claimObject, this`claimDescription,
        this`claimReason, this`isSubmitting, this`alertMessage, this`alertSeverity
      ensures !isSubmitting
      ensures old(WithinFilters()) ==> WithinFilters()
      // Nothing malformed ever reaches the remote service, and a post always follows a lookup.
      ensures forall r :: r in calls ==> match r
        case TrackingGet(b, p) => FormatOk(b, p)
        case ClaimPost(d) => FormatOk(d.posBarcode, d.posPortable)
      ensures |calls| <= 2 && (|calls| == 2 ==> calls[0].TrackingGet? && calls[1].ClaimPost?)
      // Format error: no request, draft untouched.
      ensures !FormatOk(old(colisBarcode), old(phoneNumber)) ==>
        calls == [] && Draft() == old(Draft())
        && alertMessage == FormatErrorMessage && alertSeverity == Error
      // Well-formed: the lookup is issued with the current barcode and phone number.
      ensures FormatOk(old(colisBarcode), old(phoneNumber)) ==>
        |calls| >= 1 && calls[0] == TrackingGet(old(colisBarcode), old(phoneNumber))
      // Unknown parcel: no post, draft untouched.
      ensures FormatOk(old(colisBarcode), old(phoneNumber)) && lookup.Inexistant? ==>
        calls == [TrackingGet(old(colisBarcode), old(phoneNumber))] && Draft() == old(Draft())
        && alertMessage == InvalidParcelMessage && alertSeverity == Error
      // The lookup throws: no post, draft untouched, send-failure alert.
      ensures FormatOk(old(colisBarcode), old(phoneNumber)) && lookup.LookupThrows? ==>
        calls == [TrackingGet(old(colisBarcode), old(phoneNumber))] && Draft() == old(Draft())
        && alertMessage == SendFailureMessage && alertSeverity == Error
      // The lookup answers: the current draft is posted as it stands.
      ensures FormatOk(old(colisBarcode), old(phoneNumber)) && lookup.Answered() ==>
        calls == [TrackingGet(old(colisBarcode), old(phoneNumber)), ClaimPost(old(Draft()))]
      ensures FormatOk(old(colisBarcode), old(phoneNumber)) && lookup.Answered() && post.PostOk? ==>
        Draft() == EmptyDraft && alertMessage == SuccessMessage && alertSeverity == Success
      ensures FormatOk(old(colisBarcode), old(phoneNumber)) && lookup.Answered() && post.PostThrows? ==>
        Draft() == old(Draft()) && alertMessage == SendFailureMessage && alertSeverity == Error
      // The draft changes only on a successful post, and then only to the empty draft.
      ensures Draft() == old(Draft()) || (Draft() == EmptyDraft && alertSeverity == Success)
    {
      isSubmitting := true;
      calls := [];
      if !ValidatePhoneNumber(phoneNumber) || !ValidateColisBarcode(colisBarcode) {
        alertMessage := FormatErrorMessage;
        alertSeverity := Error;
        isSubmitting := false;
        return;
      }
      calls := [TrackingGet(colisBarcode, phoneNumber)];
      var threw := lookup.LookupThrows?;
      if lookup.Inexistant? {
        alertMessage := InvalidParcelMessage;
        alertSeverity := Error;
        isSubmitting := false;
        return;
      }
      if !threw {
        var claimData := Draft();
        calls := calls + [ClaimPost(claimData)];
        threw := post.PostThrows?;
        if !threw {
          alertMessage := SuccessMessage;
          alertSeverity := Success;
          ResetFormFields();
          isSubmitting := false;
        }
      }
      if threw {
        alertMessage := SendFailureMessage;
        alertSeverity := Error;
        isSubmitting := false;
      }
    }

    /** `resetFormFields`: the draft goes back to its initial values. */
    method ResetFormFields()
      modifies this`colisBarcode, this`phoneNumber, this`claimObject, this`claimDescription,
        this`claimReason
      ensures Draft() == EmptyDraft
      ensures WithinFilters()
    {
      colisBarcode := "";
      phoneNumber := "";
      claimObject := "";
      claimDescription := "";
      claimReason := ColisEndommage;
    }

    /** `handleCloseAlert`: dismiss the notification by clearing its message. */
    method HandleCloseAlert()
      modifies this`alertMessage
      ensures alertMessage == ""
    {
      alertMessage := "";
    }
  }
}
