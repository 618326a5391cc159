/** src/hooks/use-modal-store.ts: the one global store that says which dialog is
    open and with what data.  Every dialog reads it; `onOpen`, `onClose` and
    `setSetupCompleted` are its only writers. */
module ModalStore {
  import opened Wrappers
  import opened Store

  /** `ModalType`. */
  datatype ModalType =
    | MessageFile | CreateChannel | EditChannel | EditMessage | DeleteMessage | CreateDM
    | ServerDiscovery | JoinServer | UserSettings | ServerSettings | CreateServer | ParticipantVolume

  /** The channel the edit dialog is opened on; every field but the id may be absent. */
  datatype ChannelData = ChannelData(id: string, name: string, channelType: ChannelType,
                                     description: Option<string>, isPrivate: Option<bool>, slowMode: Option<int>)

  /** `ModalData`: the fields the dialogs read, each optional. */
  datatype ModalData = ModalData(apiUrl: Option<string>, serverId: Option<string>, serverName: Option<string>,
                                 channel: Option<ChannelData>, channelType: Option<ChannelType>,
                                 participant: Option<string>)

  /** `{}`. */
  const EmptyData := ModalData(None, None, None, None, None, None)

  /** The whole store as one value. */
  datatype ModalState = ModalState(modalType: Option<ModalType>, data: ModalData, isOpen: bool, setupCompleted: bool)

  /** A dialog is open exactly when a type is set. */
  predicate Consistent(s: ModalState) {
    s.isOpen <==> s.modalType.Some?
  }

  /** Lines 27-30. */
  const Initial := ModalState(None, EmptyData, false, false)

  /** `onOpen(type, data = {})`. */
  function Opened(s: ModalState, t: ModalType, data: Option<ModalData>): (r: ModalState)
    ensures r.isOpen && r.modalType == Some(t)
    ensures r.data == data.GetOr(EmptyData)
    ensures r.setupCompleted == s.setupCompleted
    ensures Consistent(r)
  {
    ModalState(Some(t), data.GetOr(EmptyData), true, s.setupCompleted)
  }

  /** `onClose`: type and open flag reset, data and setup flag kept. */
  function Closed(s: ModalState): (r: ModalState)
    ensures !r.isOpen && r.modalType.None?
    ensures r.data == s.data && r.setupCompleted == s.setupCompleted
    ensures Consistent(r)
  {
    s.(modalType := None, isOpen := false)
  }

  /** `setSetupCompleted`. */
  function WithSetupCompleted(s: ModalState, completed: bool): (r: ModalState)
    ensures r.setupCompleted == completed
    ensures r.modalType == s.modalType && r.data == s.data && r.isOpen == s.isOpen
    ensures Consistent(s) ==> Consistent(r)
  {
    s.(setupCompleted := completed)
  }

  /** Closing twice is closing once, and reopening after a close restores the
      same dialog whatever was open before. */
  lemma CloseIdempotent(s: ModalState, t: ModalType, data: Option<ModalData>)
    ensures Closed(Closed(s)) == Closed(s)
    ensures Opened(Closed(s), t, data) == Opened(s, t, data)
    ensures Consistent(Initial)
  {
  }

  /** The store. */
  class Modal {
    var modalType: Option<ModalType>
    var data: ModalData
    var isOpen: bool
    var setupCompleted: bool

    function State(): ModalState
      reads this
    {
      ModalState(modalType, data, isOpen, setupCompleted)
    }

    constructor ()
      ensures State() == Initial
    {
      modalType := None;
      data := EmptyData;
      isOpen := false;
      setupCompleted := false;
    }

    method OnOpen(t: ModalType, d: Option<ModalData>)
      modifies this
      ensures State() == Opened(old(State()), t, d)
    {
      isOpen := true;
      modalType := Some(t);
      data := d.GetOr(EmptyData);
    }

    method OnClose()
      modifies this
      ensures State() == Closed(old(State()))
    {
      modalType := None;
      isOpen := false;
    }

    method SetSetupCompleted(completed: bool)
      modifies this
      ensures State() == WithSetupCompleted(old(State()), completed)
    {
      setupCompleted := completed;
    }
  }
}
