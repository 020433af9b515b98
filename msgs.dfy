/** The messages exchanged between the services. */
module Msgs {
  import opened Steps

  type I32 = x: int | -0x8000_0000 <= x < 0x8000_0000

  /** The test command of the driver and the subscriber (its floating-point `version` is not modelled). */
  datatype SimpleCommand = SimpleCommand(value: I32)

  /** Marker acknowledging a SimpleCommand. */
  datatype SimpleCommandAck = SimpleCommandAck

  /** Instruction to the cook chef: cook `item` for `duration` seconds. */
  datatype CookCommand = CookCommand(item: FoodItem, duration: nat)

  /** Marker acknowledging a CookCommand. */
  datatype CookCommandAck = CookCommandAck

  /** Marker announcing that a command has been carried out. */
  datatype CommandDone = CommandDone
}
