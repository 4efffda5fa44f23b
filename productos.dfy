/**
 * The products page: the listing, the create/edit dialog with its request body,
 * and the confirmed delete. API outcomes, the confirmation answer and the
 * identifiers the browser would generate are parameters; the calls issued are
 * kept in a ghost log.
 */
module Productos {
  import opened Outcomes
  import opened Sessions
  import opened Feedback
  import opened Catalog
  import AccessPolicy
  import ProductValidation

  const MsgLoadFailed: string := "Error cargando productos"
  const MsgCreated: string := "Producto creado"
  const MsgUpdated: string := "Producto actualizado"
  const MsgDeleted: string := "Producto eliminado"
  const MsgDeleteFailed: string := "Error eliminando producto"

  /** The draft the create dialog opens with: no id, empty texts, every price 0. */
  const ZeroDraft: Producto := Producto(None, "", "", "", "", Prices("0", "0", "0"))

  /** A listing row: the record, given the generated id only when it has no id of its own. */
  function ToRow(p: Producto, generated: string): (r: Producto)
    ensures r.id == Some(if p.id.Some? then p.id.value else generated)
    ensures r.(id := p.id) == p
  {
    if p.id.Some? then p else p.(id := Some(generated))
  }

  /** The rows of a listing in the server's order; row i may use the i-th generated id. */
  function Rows(data: seq<Producto>, generated: seq<string>): (rows: seq<Producto>)
    requires |generated| == |data|
    ensures |rows| == |data|
    ensures forall i | 0 <= i < |data| :: rows[i] == ToRow(data[i], generated[i])
  {
    if data == [] then [] else [ToRow(data[0], generated[0])] + Rows(data[1..], generated[1..])
  }

  /** Records that bring an id keep it whatever ids are generated. */
  lemma ServerIdsKept(data: seq<Producto>, g1: seq<string>, g2: seq<string>, i: nat)
    requires |g1| == |data| && |g2| == |data| && i < |data| && data[i].id.Some?
    ensures Rows(data, g1)[i] == Rows(data, g2)[i] == data[i]
  {
  }

  /** The body of a create or update request: every field of the form but the id. */
  datatype Payload = Payload(codigo: string, nombre: string, caracteristicas: string, empresaNIT: string, precios: Prices)

  function PayloadOf(form: Producto): Payload {
    Payload(form.codigo, form.nombre, form.caracteristicas, form.empresaNIT, form.precios)
  }

  /** A product with the given id and the body's fields. */
  function WithId(body: Payload, id: Option<string>): Producto {
    Producto(id, body.codigo, body.nombre, body.caracteristicas, body.empresaNIT, body.precios)
  }

  /** The body leaves out exactly the id: putting the id back gives the form. */
  lemma PayloadDropsOnlyId(form: Producto)
    ensures WithId(PayloadOf(form), form.id) == form
  {
  }

  /** Two forms with the same body differ at most in their id. */
  lemma PayloadDeterminesAllButId(f: Producto, g: Producto)
    requires PayloadOf(f) == PayloadOf(g)
    ensures f.(id := g.id) == g
  {
    PayloadDropsOnlyId(f);
    PayloadDropsOnlyId(g);
  }

  /** The requests the page issues. */
  datatype Call = List | Create(body: Payload) | Update(id: Option<string>, body: Payload) | Delete(rowId: string)

  class Page {
    const user: Option<Session>

    var productos: seq<Producto>
    var form: Producto
    var open: bool
    var isEditing: bool
    var snack: Snack

    /** The requests issued, in order. */
    ghost var calls: seq<Call>

    constructor (user: Option<Session>)
      ensures this.user == user
      ensures productos == [] && form == ZeroDraft && !open && !isEditing && snack == HiddenSnack && calls == []
    {
      this.user := user;
      productos := [];
      form := ZeroDraft;
      open := false;
      isEditing := false;
      snack := HiddenSnack;
      calls := [];
    }

    /** Lists the products; `generated` holds the ids the browser would generate. */
    method Load(result: Result<seq<Producto>>, generated: seq<string>)
      requires result.Ok? ==> |generated| == |result.value|
      modifies this
      ensures calls == old(calls) + [List]
      ensures result.Ok? ==> productos == Rows(result.value, generated) && snack == old(snack)
      ensures result.Err? ==> productos == old(productos) && snack == ErrorSnack(MsgLoadFailed)
      ensures form == old(form) && open == old(open) && isEditing == old(isEditing)
    {
      calls := calls + [List];
      if result.Ok? {
        productos := Rows(result.value, generated);
      } else {
        snack := ErrorSnack(MsgLoadFailed);
      }
    }

    method OpenCreate()
      modifies this
      ensures form == ZeroDraft && !isEditing && open
      ensures productos == old(productos) && snack == old(snack) && calls == old(calls)
    {
      form := ZeroDraft;
      isEditing := false;
      open := true;
    }

    /** Copies the row field by field, prices included, into the draft. */
    method OpenEdit(row: Producto)
      modifies this
      ensures form == row && isEditing && open
      ensures productos == old(productos) && snack == old(snack) && calls == old(calls)
    {
      isEditing := true;
      form := Producto(row.id, row.codigo, row.nombre, row.caracteristicas, row.empresaNIT,
                       Prices(row.precios.cop, row.precios.usd, row.precios.eur));
      open := true;
    }

    method Close()
      modifies this
      ensures !open
      ensures form == old(form) && isEditing == old(isEditing) && productos == old(productos)
      ensures snack == old(snack) && calls == old(calls)
    {
      open := false;
    }

    // Typing in the dialog's fields: each input replaces one field of the draft; the id has no input.

    method SetCodigo(value: string)
      modifies this
      ensures form == old(form).(codigo := value)
      ensures isEditing == old(isEditing) && open == old(open) && productos == old(productos)
      ensures snack == old(snack) && calls == old(calls)
    {
      form := form.(codigo := value);
    }

    method SetNombre(value: string)
      modifies this
      ensures form == old(form).(nombre := value)
      ensures isEditing == old(isEditing) && open == old(open) && productos == old(productos)
      ensures snack == old(snack) && calls == old(calls)
    {
      form := form.(nombre := value);
    }

    method SetCaracteristicas(value: string)
      modifies this
      ensures form == old(form).(caracteristicas := value)
      ensures isEditing == old(isEditing) && open == old(open) && productos == old(productos)
      ensures snack == old(snack) && calls == old(calls)
    {
      form := form.(caracteristicas := value);
    }

    method SetEmpresaNit(value: string)
      modifies this
      ensures form == old(form).(empresaNIT := value)
      ensures isEditing == old(isEditing) && open == old(open) && productos == old(productos)
      ensures snack == old(snack) && calls == old(calls)
    {
      form := form.(empresaNIT := value);
    }

    method SetPrecioCop(value: string)
      modifies this
      ensures form == old(form).(precios := old(form).precios.(cop := value))
      ensures isEditing == old(isEditing) && open == old(open) && productos == old(productos)
      ensures snack == old(snack) && calls == old(calls)
    {
      form := form.(precios := form.precios.(cop := value));
    }

    method SetPrecioUsd(value: string)
      modifies this
      ensures form == old(form).(precios := old(form).precios.(usd := value))
      ensures isEditing == old(isEditing) && open == old(open) && productos == old(productos)
      ensures snack == old(snack) && calls == old(calls)
    {
      form := form.(precios := form.precios.(usd := value));
    }

    method SetPrecioEur(value: string)
      modifies this
      ensures form == old(form).(precios := old(form).precios.(eur := value))
      ensures isEditing == old(isEditing) && open == old(open) && productos == old(productos)
      ensures snack == old(snack) && calls == old(calls)
    {
      form := form.(precios := form.precios.(eur := value));
    }

    /**
     * Saves the draft with no validation: an update by the draft's id while editing,
     * a create otherwise, both with the draft's body. On success the dialog closes
     * and the listing reloads; on failure the error's message shows.
     */
    method Submit(outcome: Result<Unit>, reload: Result<seq<Producto>>, generated: seq<string>)
      requires reload.Ok? ==> |generated| == |reload.value|
      modifies this
      ensures calls == old(calls)
        + [if old(isEditing) then Update(old(form).id, PayloadOf(old(form))) else Create(PayloadOf(old(form)))]
        + (if outcome.Ok? then [List] else [])
      ensures outcome.Err? ==>
        snack == ErrorSnack(outcome.message) && open == old(open) && productos == old(productos)
      ensures outcome.Ok? ==>
        && !open
        && productos == (if reload.Ok? then Rows(reload.value, generated) else old(productos))
        && snack == (if reload.Err? then ErrorSnack(MsgLoadFailed)
                     else SuccessSnack(if old(isEditing) then MsgUpdated else MsgCreated))
      ensures form == old(form) && isEditing == old(isEditing)
    {
      var payload := PayloadOf(form);
      if isEditing {
        calls := calls + [Update(form.id, payload)];
      } else {
        calls := calls + [Create(payload)];
      }
      if outcome.Err? {
        snack := ErrorSnack(outcome.message);
        return;
      }
      snack := SuccessSnack(if isEditing then MsgUpdated else MsgCreated);
      open := false;
      Load(reload, generated);
    }

    /**
     * Submit as the product validator evidently meant it: a draft it refuses shows
     * the validator's message, keeps the dialog open and issues no request; an
     * accepted draft is saved exactly as Submit saves it.
     */
    method SubmitChecked(outcome: Result<Unit>, reload: Result<seq<Producto>>, generated: seq<string>)
      requires reload.Ok? ==> |generated| == |reload.value|
      modifies this
      ensures ProductValidation.Validate(old(form)).Some? ==>
        && calls == old(calls)
        && snack == ErrorSnack(ProductValidation.Validate(old(form)).value)
        && open == old(open) && productos == old(productos)
      ensures ProductValidation.Validate(old(form)).None? ==>
        calls == old(calls)
          + [if old(isEditing) then Update(old(form).id, PayloadOf(old(form))) else Create(PayloadOf(old(form)))]
          + (if outcome.Ok? then [List] else [])
      ensures ProductValidation.Validate(old(form)).None? && outcome.Err? ==>
        snack == ErrorSnack(outcome.message) && open == old(open) && productos == old(productos)
      ensures ProductValidation.Validate(old(form)).None? && outcome.Ok? ==>
        && !open
        && productos == (if reload.Ok? then Rows(reload.value, generated) else old(productos))
        && snack == (if reload.Err? then ErrorSnack(MsgLoadFailed)
                     else SuccessSnack(if old(isEditing) then MsgUpdated else MsgCreated))
      ensures form == old(form) && isEditing == old(isEditing)
    {
      var refusal := ProductValidation.Validate(form);
      if refusal.Some? {
        snack := ErrorSnack(refusal.value);
        return;
      }
      Submit(outcome, reload, generated);
    }

    /** Deletes a product by its row id after the confirmation dialog. */
    method Remove(id: string, confirmed: bool, outcome: Result<Unit>, reload: Result<seq<Producto>>, generated: seq<string>)
      requires reload.Ok? ==> |generated| == |reload.value|
      modifies this
      ensures !confirmed ==> unchanged(this)
      ensures confirmed ==> calls == old(calls) + [Delete(id)] + (if outcome.Ok? then [List] else [])
      ensures confirmed && outcome.Err? ==> snack == ErrorSnack(MsgDeleteFailed) && productos == old(productos)
      ensures confirmed && outcome.Ok? ==>
        && productos == (if reload.Ok? then Rows(reload.value, generated) else old(productos))
        && snack == (if reload.Ok? then SuccessSnack(MsgDeleted) else ErrorSnack(MsgLoadFailed))
      ensures form == old(form) && open == old(open) && isEditing == old(isEditing)
    {
      if !confirmed {
        return;
      }
      calls := calls + [Delete(id)];
      if outcome.Err? {
        snack := ErrorSnack(MsgDeleteFailed);
        return;
      }
      snack := SuccessSnack(MsgDeleted);
      Load(reload, generated);
    }

    method CloseSnack()
      modifies this
      ensures snack == old(snack).(open := false)
      ensures productos == old(productos) && form == old(form) && open == old(open)
      ensures isEditing == old(isEditing) && calls == old(calls)
    {
      snack := snack.(open := false);
    }
  }

  /** The create dialog's untouched draft is one the validator refuses. */
  lemma ZeroDraftIsRefused()
    ensures ProductValidation.Validate(ZeroDraft) == Some(ProductValidation.MsgRequired)
  {
  }

  /** As written, saving the untouched create draft still sends it to the server. */
  method ZeroDraftIsSent(user: Option<Session>) returns (page: Page)
    ensures ProductValidation.Validate(page.form).Some?
    ensures page.calls == [Create(PayloadOf(ZeroDraft)), List]
  {
    page := new Page(user);
    page.OpenCreate();
    page.Submit(Ok(Unit), Ok([]), []);
  }

  /** With the check in place, the same draft is refused and nothing is sent. */
  method ZeroDraftIsHeld(user: Option<Session>) returns (page: Page)
    ensures page.calls == [] && page.open
    ensures page.snack == ErrorSnack(ProductValidation.MsgRequired)
  {
    page := new Page(user);
    page.OpenCreate();
    page.SubmitChecked(Ok(Unit), Ok([]), []);
  }

  /** Editing a row and saving it untouched sends the row's own fields, keyed by its id. */
  method EditAndSaveUnchanged(page: Page, row: Producto, outcome: Result<Unit>, reload: Result<seq<Producto>>, generated: seq<string>)
    requires reload.Ok? ==> |generated| == |reload.value|
    modifies page
    ensures |page.calls| > |old(page.calls)| && page.calls[|old(page.calls)|] == Update(row.id, PayloadOf(row))
    ensures WithId(PayloadOf(row), row.id) == row
  {
    page.OpenEdit(row);
    page.Submit(outcome, reload, generated);
    PayloadDropsOnlyId(row);
  }
}
