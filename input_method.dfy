/** The input devices the player can be using (the InputMethod enum of PlayerInput.cs). */
module InputMethods {

  datatype InputMethod = None | GamePad | KeyboardMouse
}
