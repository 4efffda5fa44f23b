/**
 * The companies page: the listing, the create/edit dialog and the confirmed
 * delete. API outcomes and the confirmation answer are parameters; the calls
 * issued are kept in a ghost log.
 */
module Empresas {
  import opened Outcomes
  import opened Sessions
  import opened Feedback
  import opened Catalog
  import AccessPolicy

  const MsgLoadFailed: string := "Error cargando empresas"
  const MsgCreated: string := "Empresa creada"
  const MsgUpdated: string := "Empresa actualizada"
  const MsgDeleted: string := "Empresa eliminada"
  const MsgDeleteFailed: string := "Error eliminando empresa"

  /** The draft the create dialog opens with. */
  const EmptyForm: Empresa := Empresa(None, "", "", "", "")

  /** A listing row: the record, whose own `id` wins over the NIT the row is keyed by by default. */
  function ToRow(e: Empresa): (r: Empresa)
    ensures r.id == Some(if e.id.Some? then e.id.value else e.nit)
    ensures r.nit == e.nit && r.nombre == e.nombre && r.direccion == e.direccion && r.telefono == e.telefono
  {
    if e.id.Some? then e else e.(id := Some(e.nit))
  }

  /** The rows of a listing, one per record, in the server's order. */
  function Rows(data: seq<Empresa>): (rows: seq<Empresa>)
    ensures |rows| == |data|
    ensures forall i | 0 <= i < |data| :: rows[i] == ToRow(data[i])
  {
    if data == [] then [] else [ToRow(data[0])] + Rows(data[1..])
  }

  /** Listing rows are already rows: mapping them again changes nothing. */
  lemma RowsIdempotent(data: seq<Empresa>)
    ensures Rows(Rows(data)) == Rows(data)
  {
  }

  /** The requests the page issues. */
  datatype Call = List | Create(body: Empresa) | Update(nit: string, body: Empresa) | Delete(nit: string)

  class Page {
    /** The session the page reads its role from. */
    const user: Option<Session>

    var empresas: seq<Empresa>
    var form: Empresa
    var open: bool
    var isEditing: bool
    var snack: Snack

    /** The requests issued, in order. */
    ghost var calls: seq<Call>

    /** The page before its first listing. */
    constructor (user: Option<Session>)
      ensures this.user == user
      ensures empresas == [] && form == EmptyForm && !open && !isEditing && snack == HiddenSnack && calls == []
    {
      this.user := user;
      empresas := [];
      form := EmptyForm;
      open := false;
      isEditing := false;
      snack := HiddenSnack;
      calls := [];
    }

    /** Lists the companies (on mount and after every successful change). */
    method Load(result: Result<seq<Empresa>>)
      modifies this
      ensures calls == old(calls) + [List]
      ensures result.Ok? ==> empresas == Rows(result.value) && snack == old(snack)
      ensures result.Err? ==> empresas == old(empresas) && snack == ErrorSnack(MsgLoadFailed)
      ensures form == old(form) && open == old(open) && isEditing == old(isEditing)
    {
      calls := calls + [List];
      if result.Ok? {
        empresas := Rows(result.value);
      } else {
        snack := ErrorSnack(MsgLoadFailed);
      }
    }

    method OpenCreate()
      modifies this
      ensures form == EmptyForm && !isEditing && open
      ensures empresas == old(empresas) && snack == old(snack) && calls == old(calls)
    {
      form := EmptyForm;
      isEditing := false;
      open := true;
    }

    method OpenEdit(row: Empresa)
      modifies this
      ensures form == row && isEditing && open
      ensures empresas == old(empresas) && snack == old(snack) && calls == old(calls)
    {
      form := row;
      isEditing := true;
      open := true;
    }

    method Close()
      modifies this
      ensures !open
      ensures form == old(form) && isEditing == old(isEditing) && empresas == old(empresas)
      ensures snack == old(snack) && calls == old(calls)
    {
      open := false;
    }

    /** Typing in the NIT field; the disabled field of an edit takes no input. */
    method SetNit(value: string)
      modifies this
      ensures form == if old(isEditing) then old(form) else old(form).(nit := value)
      ensures isEditing == old(isEditing) && open == old(open) && empresas == old(empresas)
      ensures snack == old(snack) && calls == old(calls)
    {
      if !isEditing {
        form := form.(nit := value);
      }
    }

    method SetNombre(value: string)
      modifies this
      ensures form == old(form).(nombre := value)
      ensures isEditing == old(isEditing) && open == old(open) && empresas == old(empresas)
      ensures snack == old(snack) && calls == old(calls)
    {
      form := form.(nombre := value);
    }

    method SetDireccion(value: string)
      modifies this
      ensures form == old(form).(direccion := value)
      ensures isEditing == old(isEditing) && open == old(open) && empresas == old(empresas)
      ensures snack == old(snack) && calls == old(calls)
    {
      form := form.(direccion := value);
    }

    method SetTelefono(value: string)
      modifies this
      ensures form == old(form).(telefono := value)
      ensures isEditing == old(isEditing) && open == old(open) && empresas == old(empresas)
      ensures snack == old(snack) && calls == old(calls)
    {
      form := form.(telefono := value);
    }

    /**
     * Saves the draft: an update by NIT while editing, a create otherwise. On success
     * the dialog closes and the listing reloads with `reload` as its outcome; on
     * failure the error's message shows and the dialog stays as it was.
     */
    method Submit(outcome: Result<Unit>, reload: Result<seq<Empresa>>)
      modifies this
      ensures calls == old(calls)
        + [if old(isEditing) then Update(old(form).nit, old(form)) else Create(old(form))]
        + (if outcome.Ok? then [List] else [])
      ensures outcome.Err? ==>
        snack == ErrorSnack(outcome.message) && open == old(open) && empresas == old(empresas)
      ensures outcome.Ok? ==>
        && !open
        && empresas == (if reload.Ok? then Rows(reload.value) else old(empresas))
        && snack == (if reload.Err? then ErrorSnack(MsgLoadFailed)
                     else SuccessSnack(if old(isEditing) then MsgUpdated else MsgCreated))
      ensures form == old(form) && isEditing == old(isEditing)
    {
      if isEditing {
        calls := calls + [Update(form.nit, form)];
      } else {
        calls := calls + [Create(form)];
      }
      if outcome.Err? {
        snack := ErrorSnack(outcome.message);
        return;
      }
      snack := SuccessSnack(if isEditing then MsgUpdated else MsgCreated);
      open := false;
      Load(reload);
    }

    /**
     * Deletes a company after the confirmation dialog. A declined confirmation
     * changes nothing and issues nothing.
     */
    method Remove(nit: string, confirmed: bool, outcome: Result<Unit>, reload: Result<seq<Empresa>>)
      modifies this
      ensures !confirmed ==> unchanged(this)
      ensures confirmed ==> calls == old(calls) + [Delete(nit)] + (if outcome.Ok? then [List] else [])
      ensures confirmed && outcome.Err? ==> snack == ErrorSnack(MsgDeleteFailed) && empresas == old(empresas)
      ensures confirmed && outcome.Ok? ==>
        && empresas == (if reload.Ok? then Rows(reload.value) else old(empresas))
        && snack == (if reload.Ok? then SuccessSnack(MsgDeleted) else ErrorSnack(MsgLoadFailed))
      ensures form == old(form) && open == old(open) && isEditing == old(isEditing)
    {
      if !confirmed {
        return;
      }
      calls := calls + [Delete(nit)];
      if outcome.Err? {
        snack := ErrorSnack(MsgDeleteFailed);
        return;
      }
      snack := SuccessSnack(MsgDeleted);
      Load(reload);
    }

    /** Dismissing the snackbar hides it and keeps its text. */
    method CloseSnack()
      modifies this
      ensures snack == old(snack).(open := false)
      ensures empresas == old(empresas) && form == old(form) && open == old(open)
      ensures isEditing == old(isEditing) && calls == old(calls)
    {
      snack := snack.(open := false);
    }
  }

  /**
   * Editing a row and saving it untouched sends the row itself, keyed by its NIT,
   * even when the NIT field is typed into.
   */
  method EditAndSaveUnchanged(page: Page, row: Empresa, typed: string, outcome: Result<Unit>, reload: Result<seq<Empresa>>)
    modifies page
    ensures |page.calls| > |old(page.calls)| && page.calls[|old(page.calls)|] == Update(row.nit, row)
  {
    page.OpenEdit(row);
    page.SetNit(typed);
    page.Submit(outcome, reload);
  }
}
