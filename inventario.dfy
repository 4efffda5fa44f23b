/**
 * The inventory page: a read-only listing of one company's products, chosen
 * from the company list, with a document download and an e-mail dispatch.
 * API outcomes are parameters; alerts, downloads and issued calls are recorded.
 */
module Inventario {
  import opened Outcomes
  import opened Sessions
  import opened Feedback
  import opened Catalog
  import AccessPolicy

  const MsgEmpresasFailed: string := "Error cargando empresas"
  const MsgInventarioFailed: string := "Error cargando inventario"
  const MsgPdfDownloaded: string := "PDF descargado"
  const MsgPdfFailed: string := "No se pudo descargar el PDF"
  const MsgEmailSent: string := "Correo enviado"

  const PdfPrefix: string := "inventario_"
  const PdfSuffix: string := ".pdf"

  /** The name the downloaded document is saved under. */
  function PdfFileName(nit: string): (name: string)
    ensures |name| == |PdfPrefix| + |nit| + |PdfSuffix|
    ensures name[..|PdfPrefix|] == PdfPrefix
    ensures name[|PdfPrefix|..|PdfPrefix| + |nit|] == nit
    ensures name[|PdfPrefix| + |nit|..] == PdfSuffix
  {
    var name := PdfPrefix + nit + PdfSuffix;
    assert name[..|PdfPrefix|] == PdfPrefix;
    assert name[|PdfPrefix|..|PdfPrefix| + |nit|] == nit;
    name
  }

  /** The company can be read back from the file name: distinct companies get distinct names. */
  lemma PdfFileNameInjective(a: string, b: string)
    requires PdfFileName(a) == PdfFileName(b)
    ensures a == b
  {
    var n := PdfFileName(a);
    assert |a| == |b|;
    assert a == n[|PdfPrefix|..|PdfPrefix| + |a|] == b;
  }

  /** The requests the page issues. */
  datatype Call = ListEmpresas | FetchInventario(nit: string) | FetchPdf(nit: string) | SendEmail(to: string, nit: string)

  class Page {
    const user: Option<Session>

    var empresas: seq<Empresa>
    var nitSeleccionado: string
    var inventario: seq<Producto>
    var emailModal: bool
    var emailDestino: string

    /** The alerts shown, in order. */
    var alerts: seq<Alert>
    /** The file names of the downloads started, in order. */
    var downloads: seq<string>

    /** The requests issued, in order. */
    ghost var calls: seq<Call>

    constructor (user: Option<Session>)
      ensures this.user == user
      ensures empresas == [] && nitSeleccionado == "" && inventario == []
      ensures !emailModal && emailDestino == "" && alerts == [] && downloads == [] && calls == []
    {
      this.user := user;
      empresas := [];
      nitSeleccionado := "";
      inventario := [];
      emailModal := false;
      emailDestino := "";
      alerts := [];
      downloads := [];
      calls := [];
    }

    /** The download and e-mail buttons show only for ADMIN with a company selected. */
    predicate ExportShown()
      reads this
      ensures ExportShown() <==> AccessPolicy.Authorize(user, Some([Admin])) == AccessPolicy.Allow && nitSeleccionado != ""
    {
      AccessPolicy.IsAdmin(user) && nitSeleccionado != ""
    }

    /** Lists the companies of the selector, as the server sends them. */
    method LoadEmpresas(result: Result<seq<Empresa>>)
      modifies this
      ensures calls == old(calls) + [ListEmpresas]
      ensures empresas == if result.Ok? then result.value else old(empresas)
      ensures alerts == old(alerts) + (if result.Err? then [AlertError(MsgEmpresasFailed)] else [])
      ensures nitSeleccionado == old(nitSeleccionado) && inventario == old(inventario)
      ensures emailModal == old(emailModal) && emailDestino == old(emailDestino) && downloads == old(downloads)
    {
      calls := calls + [ListEmpresas];
      if result.Ok? {
        empresas := result.value;
      } else {
        alerts := alerts + [AlertError(MsgEmpresasFailed)];
      }
    }

    /**
     * Selects a company: the selection is recorded first, even when empty. An empty
     * selection clears the rows without a request; any other fetches its rows and
     * shows them unchanged, or keeps the previous rows when the fetch fails.
     */
    method SelectEmpresa(nit: string, result: Result<seq<Producto>>)
      modifies this
      ensures nitSeleccionado == nit
      ensures nit == "" ==> inventario == [] && calls == old(calls) && alerts == old(alerts)
      ensures nit != "" ==> calls == old(calls) + [FetchInventario(nit)]
      ensures nit != "" ==> inventario == (if result.Ok? then result.value else old(inventario))
      ensures nit != "" ==> alerts == old(alerts) + (if result.Err? then [AlertError(MsgInventarioFailed)] else [])
      ensures empresas == old(empresas) && emailModal == old(emailModal)
      ensures emailDestino == old(emailDestino) && downloads == old(downloads)
    {
      nitSeleccionado := nit;
      if nit == "" {
        inventario := [];
        return;
      }
      calls := calls + [FetchInventario(nit)];
      if result.Ok? {
        inventario := result.value;
      } else {
        alerts := alerts + [AlertError(MsgInventarioFailed)];
      }
    }

    /** Downloads the selected company's document under its file name. */
    method DownloadPdf(result: Result<Unit>)
      modifies this
      ensures calls == old(calls) + [FetchPdf(nitSeleccionado)]
      ensures result.Ok? ==>
        downloads == old(downloads) + [PdfFileName(nitSeleccionado)] && alerts == old(alerts) + [AlertSuccess(MsgPdfDownloaded)]
      ensures result.Err? ==>
        downloads == old(downloads) && alerts == old(alerts) + [AlertError(MsgPdfFailed)]
      ensures empresas == old(empresas) && nitSeleccionado == old(nitSeleccionado) && inventario == old(inventario)
      ensures emailModal == old(emailModal) && emailDestino == old(emailDestino)
    {
      calls := calls + [FetchPdf(nitSeleccionado)];
      if result.Ok? {
        downloads := downloads + [PdfFileName(nitSeleccionado)];
        alerts := alerts + [AlertSuccess(MsgPdfDownloaded)];
      } else {
        alerts := alerts + [AlertError(MsgPdfFailed)];
      }
    }

    method OpenEmailModal()
      modifies this
      ensures emailModal
      ensures empresas == old(empresas) && nitSeleccionado == old(nitSeleccionado) && inventario == old(inventario)
      ensures emailDestino == old(emailDestino) && alerts == old(alerts) && downloads == old(downloads) && calls == old(calls)
    {
      emailModal := true;
    }

    method CloseEmailModal()
      modifies this
      ensures !emailModal
      ensures empresas == old(empresas) && nitSeleccionado == old(nitSeleccionado) && inventario == old(inventario)
      ensures emailDestino == old(emailDestino) && alerts == old(alerts) && downloads == old(downloads) && calls == old(calls)
    {
      emailModal := false;
    }

    method SetEmailDestino(value: string)
      modifies this
      ensures emailDestino == value
      ensures empresas == old(empresas) && nitSeleccionado == old(nitSeleccionado) && inventario == old(inventario)
      ensures emailModal == old(emailModal) && alerts == old(alerts) && downloads == old(downloads) && calls == old(calls)
    {
      emailDestino := value;
    }

    /**
     * Sends the document to the typed address with no local check of it. Success
     * closes the dialog and keeps the address; failure shows the error's text.
     */
    method SendByEmail(result: Result<Unit>)
      modifies this
      ensures calls == old(calls) + [SendEmail(old(emailDestino), old(nitSeleccionado))]
      ensures result.Ok? ==> !emailModal && alerts == old(alerts) + [AlertSuccess(MsgEmailSent)]
      ensures result.Err? ==> emailModal == old(emailModal) && alerts == old(alerts) + [AlertError(result.message)]
      ensures emailDestino == old(emailDestino)
      ensures empresas == old(empresas) && nitSeleccionado == old(nitSeleccionado) && inventario == old(inventario)
      ensures downloads == old(downloads)
    {
      calls := calls + [SendEmail(emailDestino, nitSeleccionado)];
      if result.Ok? {
        emailModal := false;
        alerts := alerts + [AlertSuccess(MsgEmailSent)];
      } else {
        alerts := alerts + [AlertError(result.message)];
      }
    }
  }

  /** An empty address is sent as it is: nothing refuses it before the request. */
  method EmptyAddressIsSent(page: Page, result: Result<Unit>)
    modifies page
    ensures page.calls == old(page.calls) + [SendEmail("", old(page.nitSeleccionado))]
  {
    page.SetEmailDestino("");
    page.SendByEmail(result);
  }
}
