/**
 * The CertificatesManager editor component: its form state (`certificateForm`, `isEditing`) and its
 * handlers. The list the component edits (`data`) and the save callback (`onSave`)
 * belong to its parent: the list is a parameter of each handler, the list handed to
 * `onSave` is the handler's result, and the outcome `onSave` resolves to is the
 * parameter `saved`. The delete confirmation dialog's answer is `confirmed`.
 */
module CertificateEditing {
  import opened Wrappers
  import opened Portfolio

  class CertificatesManager {
    var certificateForm: CertificateForm
    var isEditing: bool

    constructor ()
      ensures certificateForm == EmptyCertificateForm && !isEditing
    {
      certificateForm := EmptyCertificateForm;
      isEditing := false;
    }

    /** Adds the form's certificate under a fresh id; the form is cleared and closed only if the save succeeded. */
    method AddCertificate(certificates: seq<Certificate>, saved: bool) returns (sent: seq<Certificate>)
      modifies this
      ensures sent == WithNewCertificate(certificates, old(certificateForm))
      ensures saved ==> certificateForm == EmptyCertificateForm && !isEditing
      ensures !saved ==> certificateForm == old(certificateForm) && isEditing == old(isEditing)
    {
      sent := WithNewCertificate(certificates, certificateForm);
      if saved {
        certificateForm := EmptyCertificateForm;
        isEditing := false;
      }
    }

    /** Opens an existing certificate in the form. */
    method EditCertificate(x: Certificate)
      modifies this
      ensures certificateForm == CertificateToForm(x) && isEditing
    {
      certificateForm := CertificateToForm(x);
      isEditing := true;
    }

    /**
     * Saves the form over the certificate with the form's id. Nothing is sent and nothing
     * changes when the form has no id (or id 0).
     */
    method SaveEditedCertificate(certificates: seq<Certificate>, saved: bool) returns (sent: Option<seq<Certificate>>)
      modifies this
      ensures !IdSet(old(certificateForm.id)) ==> sent == None && certificateForm == old(certificateForm) && isEditing == old(isEditing)
      ensures IdSet(old(certificateForm.id)) ==> sent == Some(WithEditedCertificate(certificates, old(certificateForm.id.value), old(certificateForm)))
      ensures IdSet(old(certificateForm.id)) && saved ==> certificateForm == EmptyCertificateForm && !isEditing
      ensures !saved ==> certificateForm == old(certificateForm) && isEditing == old(isEditing)
    {
      if !IdSet(certificateForm.id) {
        return None;
      }
      sent := Some(WithEditedCertificate(certificates, certificateForm.id.value, certificateForm));
      if saved {
        certificateForm := EmptyCertificateForm;
        isEditing := false;
      }
    }

    /** Deletes every certificate with id `id`, once the user has confirmed. */
    method DeleteCertificate(certificates: seq<Certificate>, id: int, confirmed: bool) returns (sent: Option<seq<Certificate>>)
      ensures confirmed ==> sent == Some(WithoutCertificate(certificates, id))
      ensures !confirmed ==> sent == None
    {
      if !confirmed {
        return None;
      }
      sent := Some(WithoutCertificate(certificates, id));
    }
  }
}
