/**
 The `App` component of src/App.jsx as a state machine: its eight state
 slots are the fields of class `App`, and each handler is a method that
 assigns them in the order the component does. The two network requests
 are not performed here; their outcomes are the inputs of the completion
 methods `LoadCompleted` and `CompleteSave`.
 */
module TaxApp {
  import opened TaxRecords

  /** The message shown when the initial load fails. */
  const LoadFailedMessage: string := "Failed to load data"

  /** How the joint fetch of taxes and countries ended. */
  datatype LoadOutcome = Loaded(taxes: seq<TaxRecord>, countryList: seq<Country>) | LoadFailed

  /** How the PUT request ended: the server's record, or any failure. */
  datatype SaveOutcome = Saved(record: TaxRecord) | SaveFailed

  /** What the page shows: the loading text, the error text, or the table. */
  datatype ViewState = Loading | Error(message: string) | Ready(records: seq<TaxRecord>, countries: seq<Country>)

  /**
   What a save in flight holds across its `await`: the row being edited, the
   payload sent, and the table as it was when the save began.
   */
  datatype PendingSave = PendingSave(target: TaxRecord, payload: TaxRecord, base: seq<TaxRecord>)

  /** The values of all eight state slots at one moment. */
  datatype Snapshot = Snapshot(
    data: seq<TaxRecord>,
    countries: seq<Country>,
    loading: bool,
    error: Option<string>,
    editingRow: Option<TaxRecord>,
    modalOpen: bool,
    form: Form,
    saving: bool)

  class App {
    var data: seq<TaxRecord>
    var countries: seq<Country>
    var loading: bool
    var error: Option<string>
    var editingRow: Option<TaxRecord>
    var modalOpen: bool
    var form: Form
    var saving: bool

    /**
     The modal is open exactly when a row is being edited; nothing is loaded
     and no modal is open before the load ends; a failed load leaves the
     fixed message and no data.
     */
    ghost predicate Valid()
      reads this
    {
      && modalOpen == editingRow.Some?
      && (loading ==> data == [] && countries == [] && error == None && !modalOpen)
      && (error.Some? ==> error.value == LoadFailedMessage && data == [] && countries == [] && !modalOpen)
    }

    /** All state slots together, so that a handler can say which of them it changes. */
    function State(): Snapshot
      reads this
    {
      Snapshot(data, countries, loading, error, editingRow, modalOpen, form, saving)
    }

    /** The page chosen by the early returns of the render: loading first, then the error, then the table. */
    function View(): (v: ViewState)
      reads this
      ensures v.Ready? <==> !loading && error.None?
    {
      if loading then Loading
      else if error.Some? then Error(error.value)
      else Ready(data, countries)
    }

    /** The initial values of the state slots. */
    constructor ()
      ensures Valid() && View() == Loading
      ensures State() == Snapshot([], [], true, None, None, false, EmptyForm, false)
    {
      data := [];
      countries := [];
      loading := true;
      error := None;
      editingRow := None;
      modalOpen := false;
      form := EmptyForm;
      saving := false;
    }

    /**
     The end of the one load started at mount: the two responses on success,
     the fixed message on failure, and the loading flag cleared either way.
     */
    method LoadCompleted(outcome: LoadOutcome)
      requires Valid() && loading
      modifies this
      ensures Valid() && !loading
      ensures outcome.Loaded? ==> View() == Ready(outcome.taxes, outcome.countryList) && error == None
      ensures outcome.LoadFailed? ==> View() == Error(LoadFailedMessage) && data == [] && countries == []
      ensures State() == old(State()).(data := data, countries := countries, loading := false, error := error)
    {
      match outcome {
        case Loaded(taxes, countryList) =>
          data := taxes;
          countries := countryList;
        case LoadFailed =>
          error := Some(LoadFailedMessage);
      }
      loading := false;
    }

    /** The edit button of a table row: remember the row, fill the form from it, open the modal. */
    method OpenEditModal(row: TaxRecord)
      requires Valid() && View().Ready?
      modifies this
      ensures Valid()
      ensures State() == old(State()).(editingRow := Some(row), form := FormOf(row), modalOpen := true)
    {
      editingRow := Some(row);
      form := FormOf(row);
      modalOpen := true;
    }

    /** Cancel, or the end of a successful save: close the modal and forget the row; the form stays. */
    method CloseModal()
      requires Valid()
      modifies this
      ensures Valid() && !modalOpen && editingRow == None
      ensures State() == old(State()).(modalOpen := false, editingRow := None)
    {
      modalOpen := false;
      editingRow := None;
    }

    /** Typing in the name input changes the form's name only. */
    method EditName(name: string)
      requires Valid()
      modifies this
      ensures Valid()
      ensures State() == old(State()).(form := old(form).(name := name))
    {
      form := form.(name := name);
    }

    /** Choosing in the country select changes the form's country only. */
    method EditCountry(country: string)
      requires Valid()
      modifies this
      ensures Valid()
      ensures State() == old(State()).(form := old(form).(country := country))
    {
      form := form.(country := country);
    }

    /**
     The Save button, up to the request: raise the saving flag and build the
     payload from the edited row and the form. The returned value is what the
     request and its completion work with.
     */
    method BeginSave() returns (pending: PendingSave)
      requires Valid() && modalOpen && !saving
      modifies this
      ensures Valid() && saving
      ensures pending.target == old(editingRow).value && pending.base == old(data)
      ensures pending.payload == Payload(pending.target, old(form))
      ensures State() == old(State()).(saving := true)
    {
      saving := true;
      var row := editingRow.value;
      pending := PendingSave(row, Payload(row, form), data);
    }

    /**
     The rest of the Save handler once the request has ended. On success the
     table becomes the merge of the server's record into the table the save
     started from, and the modal closes; on failure only the user is told.
     The saving flag is cleared either way.
     */
    method CompleteSave(pending: PendingSave, outcome: SaveOutcome)
      requires Valid() && View().Ready?
      modifies this
      ensures Valid() && !saving
      ensures outcome.Saved? ==> State() == old(State()).(
                data := ReplaceById(pending.base, pending.target.id, outcome.record),
                modalOpen := false, editingRow := None, saving := false)
      ensures outcome.SaveFailed? ==> State() == old(State()).(saving := false)
    {
      match outcome {
        case Saved(record) =>
          data := ReplaceById(pending.base, pending.target.id, record);
          CloseModal();
        case SaveFailed =>
      }
      saving := false;
    }
  }

  /**
   A full edit: load two records, edit the first one's name and country,
   and save with the server echoing the payload. The first row is replaced,
   the second is untouched, and the modal is closed.
   */
  method EditAndSave() returns (table: seq<TaxRecord>, open: bool)
    ensures table == [TaxRecord("1", "B", 5.0, "Y"), TaxRecord("2", "C", 8.0, "Z")]
    ensures !open
  {
    var a := TaxRecord("1", "A", 5.0, "X");
    var b := TaxRecord("2", "C", 8.0, "Z");
    var app := new App();
    app.LoadCompleted(Loaded([a, b], [Country("1", "Y")]));
    app.OpenEditModal(a);
    app.EditName("B");
    app.EditCountry("Y");
    var pending := app.BeginSave();
    app.CompleteSave(pending, Saved(pending.payload));
    table, open := app.data, app.modalOpen;
  }

  /**
   A save that fails keeps the modal open on the same row with the user's
   form, and the table as it was.
   */
  method EditAndFail() returns (table: seq<TaxRecord>, open: bool, form: Form, saving: bool)
    ensures table == [TaxRecord("1", "A", 5.0, "X")]
    ensures open && form == Form("B", "Y") && !saving
  {
    var a := TaxRecord("1", "A", 5.0, "X");
    var app := new App();
    app.LoadCompleted(Loaded([a], []));
    app.OpenEditModal(a);
    app.EditName("B");
    app.EditCountry("Y");
    var pending := app.BeginSave();
    app.CompleteSave(pending, SaveFailed);
    table, open, form, saving := app.data, app.modalOpen, app.form, app.saving;
  }

  /**
   Cancel pressed while a save is in flight, then another row opened: the
   late success still merges by the first row's id and closes the modal
   the second row had opened.
   */
  method CancelDuringSave() returns (table: seq<TaxRecord>, open: bool)
    ensures table == [TaxRecord("1", "B", 5.0, "X"), TaxRecord("2", "C", 8.0, "Z")]
    ensures !open
  {
    var a := TaxRecord("1", "A", 5.0, "X");
    var b := TaxRecord("2", "C", 8.0, "Z");
    var app := new App();
    app.LoadCompleted(Loaded([a, b], []));
    app.OpenEditModal(a);
    app.EditName("B");
    var pending := app.BeginSave();
    app.CloseModal();
    app.OpenEditModal(b);
    app.CompleteSave(pending, Saved(pending.payload));
    table, open := app.data, app.modalOpen;
  }

  /** A load that fails shows the fixed message and leaves both lists empty. */
  method LoadFailure() returns (view: ViewState, table: seq<TaxRecord>)
    ensures view == Error(LoadFailedMessage) && table == []
  {
    var app := new App();
    app.LoadCompleted(LoadFailed);
    view, table := app.View(), app.data;
  }
}
