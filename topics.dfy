/** The table of logical channel names and their transport identifiers. */
module Topics {

  datatype TopicName =
    | PrepareCommand | PrepareCommandAck | PrepareCommandDone
    | CookCommand | CookCommandAck | CookCommandDone

  /** The transport identifier of a channel; it starts with the prefix of the channel's role. */
  function ToString(t: TopicName): (s: string)
    ensures |FamilyPrefix(FamilyOf(t))| < |s|
    ensures s[..|FamilyPrefix(FamilyOf(t))|] == FamilyPrefix(FamilyOf(t))
  {
    match t
    case PrepareCommand => "prepare_command"
    case PrepareCommandAck => "prepare_command_ack"
    case PrepareCommandDone => "prepare_command_done"
    case CookCommand => "cook_command"
    case CookCommandAck => "cook_command_ack"
    case CookCommandDone => "cook_command_done"
  }

  /** The two worker roles, each owning a command, an ack and a done channel. */
  datatype Family = Prepare | Cook

  function CommandTopic(f: Family): TopicName {
    if f == Prepare then PrepareCommand else CookCommand
  }

  function AckTopic(f: Family): TopicName {
    if f == Prepare then PrepareCommandAck else CookCommandAck
  }

  function DoneTopic(f: Family): TopicName {
    if f == Prepare then PrepareCommandDone else CookCommandDone
  }

  function FamilyOf(t: TopicName): Family {
    match t
    case PrepareCommand | PrepareCommandAck | PrepareCommandDone => Prepare
    case CookCommand | CookCommandAck | CookCommandDone => Cook
  }

  /** The prefix every channel name of a role starts with. */
  function FamilyPrefix(f: Family): string {
    if f == Prepare then "prepare_" else "cook_"
  }

  /** Distinct channels never share a transport identifier. */
  lemma ToStringInjective(t: TopicName, u: TopicName)
    ensures ToString(t) == ToString(u) ==> t == u
  {
    if ToString(t) == ToString(u) {
      assert |ToString(t)| == |ToString(u)|;
    }
  }

  /** Each role's ack and done names extend its command name. */
  lemma AckAndDoneExtendCommand(f: Family)
    ensures ToString(AckTopic(f)) == ToString(CommandTopic(f)) + "_ack"
    ensures ToString(DoneTopic(f)) == ToString(CommandTopic(f)) + "_done"
  {
  }
}
