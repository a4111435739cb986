/** The command-server action that makes sure TWS accepts API connections,
    answering on the command channel. */
module EnableApiTask {
  import opened Util
  import opened Swing
  import opened ConfigDialog

  /** A reply written to the command channel. */
  datatype Reply = Ack(message: string) | Nack(message: string)

  /** The command channel, reduced to the replies written to it. */
  class CommandChannel {
    var replies: seq<Reply>

    constructor ()
      ensures replies == []
    {
      replies := [];
    }

    method WriteAck(message: string)
      modifies this
      ensures replies == old(replies) + [Ack(message)]
    {
      replies := replies + [Ack(message)];
    }

    method WriteNack(message: string)
      modifies this
      ensures replies == old(replies) + [Nack(message)]
    {
      replies := replies + [Nack(message)];
    }
  }

  const ConfiguredReply := "configured"
  const AlreadyConfiguredReply := "already configured"

  datatype RunResult = RunResult(window: WindowValue, reply: Reply)

  /** run: select the API section; Enable ActiveX must exist (otherwise the
      exception message is sent as a nack); a clear box is clicked, then OK,
      and "configured" is acknowledged; a selected one is left alone and
      "already configured" is acknowledged. The dialog is not hidden. */
  function AfterRun(v: WindowValue): RunResult {
    var s := ApiSectionSelected(v);
    if ActiveXCheckBox !in s.checkBoxes then RunResult(s, Nack(NoActiveXMessage))
    else if !s.checkBoxes[ActiveXCheckBox] then RunResult(s.FlipCheckBox(ActiveXCheckBox).Click(OkButton), Ack(ConfiguredReply))
    else RunResult(s, Ack(AlreadyConfiguredReply))
  }

  /** No Enable ActiveX box: a nack carrying the exception message, and no
      click of any kind. */
  lemma MissingCheckBoxNacks(v: WindowValue)
    requires ActiveXCheckBox !in v.checkBoxes
    ensures AfterRun(v).reply == Nack("could not find Enable ActiveX checkbox")
    ensures AfterRun(v).window == ApiSectionSelected(v)
    ensures AfterRun(v).window.clicks == v.clicks
  {
  }

  /** A clear box: it is clicked, so becomes selected, then OK is clicked,
      and "configured" is acknowledged. */
  lemma ClearBoxIsEnabled(v: WindowValue)
    requires ActiveXCheckBox in v.checkBoxes && !v.checkBoxes[ActiveXCheckBox]
    ensures var r := AfterRun(v);
      && r.reply == Ack("configured")
      && r.window.checkBoxes == v.checkBoxes[ActiveXCheckBox := true]
      && r.window.clicks == v.clicks + [ActiveXCheckBox] + (if OkButton in v.buttons then [OkButton] else [])
      && r.window.visible == v.visible
  {
  }

  /** A selected box: no click at all, and "already configured". */
  lemma SelectedBoxIsLeftAlone(v: WindowValue)
    requires ActiveXCheckBox in v.checkBoxes && v.checkBoxes[ActiveXCheckBox]
    ensures AfterRun(v).reply == Ack("already configured")
    ensures AfterRun(v).window == ApiSectionSelected(v)
  {
  }

  /** Whatever the dialog, afterwards Enable ActiveX is selected exactly when
      the reply is an ack. */
  lemma AckMeansEnabled(v: WindowValue)
    ensures var r := AfterRun(v);
      r.reply.Ack? <==> ActiveXCheckBox in r.window.checkBoxes && r.window.checkBoxes[ActiveXCheckBox]
  {
  }

  class EnableApiTask {
    const channel: CommandChannel
    var configDialog: Window?

    constructor (channel: CommandChannel)
      ensures this.channel == channel && configDialog == null
    {
      this.channel := channel;
      configDialog := null;
    }

    /** initialise: bind the dialog that run works on. */
    method Initialise(dialog: Window)
      modifies this`configDialog
      ensures configDialog == dialog
    {
      configDialog := dialog;
    }

    /** run, on the bound dialog: exactly one reply is written. */
    method Run()
      requires configDialog != null
      modifies configDialog, channel
      ensures configDialog.State() == AfterRun(old(configDialog.State())).window
      ensures channel.replies == old(channel.replies) + [AfterRun(old(configDialog.State())).reply]
    {
      var dialog := configDialog;
      SelectApiSection(dialog);
      if ActiveXCheckBox !in dialog.checkBoxes {
        channel.WriteNack(NoActiveXMessage);
        return;
      }
      if !dialog.checkBoxes[ActiveXCheckBox] {
        dialog.ClickCheckBox(ActiveXCheckBox);
        var _ := dialog.ClickButton(OkButton);
        channel.WriteAck(ConfiguredReply);
      } else {
        channel.WriteAck(AlreadyConfiguredReply);
      }
    }
  }
}
