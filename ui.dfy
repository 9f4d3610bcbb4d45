/** User-visible notifications raised by the pages. */
module Ui {

  /** A toast: title, description, and whether it uses the destructive
      (error) variant. */
  datatype Toast = Toast(title: string, description: string, destructive: bool)
}
